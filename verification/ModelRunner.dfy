/** The runner: cached requests, and a persistent batch that holds the scheduled ones. */
module ModelRunners {
  import opened Basics
  import opened Finite
  import opened InputBatches
  import opened RunnerSpec
  import opened SampleSpec

  /** The output list of every request. */
  ghost function ListsOf(requests: map<ReqId, CachedRequest>): (m: map<ReqId, TokenList>)
    ensures m.Keys == requests.Keys
  {
    map id | id in requests :: requests[id].output
  }

  lemma ListsPut(requests: map<ReqId, CachedRequest>, id: ReqId, r: CachedRequest)
    ensures ListsOf(requests[id := r]) == ListsOf(requests)[id := r.output]
  {}

  lemma OwnList(requests: map<ReqId, CachedRequest>, id: ReqId)
    requires Injective(ListsOf(requests)) && id in requests
    ensures forall k | k in requests && k != id :: requests[k].output != requests[id].output
  {
    assert forall k | k in requests :: ListsOf(requests)[k] == requests[k].output;
  }

  lemma ListsDrop(requests: map<ReqId, CachedRequest>, ids: set<ReqId>)
    ensures ListsOf(requests - ids) == ListsOf(requests) - ids
  {}

  class ModelRunner {
    const batch: InputBatch
    var requests: map<ReqId, CachedRequest>

    /** Every request is filed under its id. */
    ghost predicate Filed()
      reads this
    {
      forall id | id in requests :: requests[id].id == id
    }

    /** The objects that hold what the runner knows. */
    ghost function Footprint(): set<object>
      reads this
    {
      {this} + (set id | id in requests :: requests[id]) + (set id | id in requests :: requests[id].output)
    }

    lemma BatchApart()
      ensures this in Footprint() && batch !in Footprint() && batch.tokenIds !in Footprint()
    {}

    ghost function Lists(): map<ReqId, TokenList>
      reads this
    {
      ListsOf(requests)
    }

    /** What the runner knows of each request. */
    ghost function Reqs(): (m: map<ReqId, Req>)
      reads Footprint()
      ensures m.Keys == requests.Keys
    {
      map id | id in requests :: requests[id].Snap()
    }

    /** The runner knows these requests. */
    ghost predicate Held(reqs: map<ReqId, Req>)
      reads Footprint()
    {
      Filed() && Reqs() == reqs
    }

    ghost predicate Linking(reqs: map<ReqId, Req>, rows: map<ReqId, Row>)
      reads this
    {
      Linked(reqs, Lists(), rows, batch.vocab, batch.maxLen)
    }

    /** Between steps: a table without holes, every row its own request's, the output lists shared. */
    ghost predicate Valid()
      reads Footprint(), batch, batch.tokenIds
    {
      batch.Valid() && Held(Reqs()) && Linking(Reqs(), batch.Rows())
    }

    constructor (maxReqs: nat, maxLen: nat, vocab: int)
      ensures Valid() && requests == map[] && batch.index == map[]
      ensures batch.maxReqs == maxReqs && batch.maxLen == maxLen && batch.vocab == vocab
      ensures fresh(batch) && fresh(batch.tokenIds)
    {
      batch := new InputBatch(maxReqs, maxLen, vocab);
      requests := map[];
    }

    // ---- _update_states, part by part ----

    /** Who sits where, with which bias. */
    ghost predicate Sits(t: Slots)
      reads batch
    {
      SlotsAre(t, batch.reqIds, batch.index, batch.columns.logitBias)
    }

    /** No empty slot holds a bias. */
    ghost predicate NothingLeft()
      reads batch
    {
      Clean(batch.reqIds, batch.columns.logitBias)
    }

    /** Every live request carries its own bias, and no empty slot holds one. */
    ghost predicate Tidied()
      reads Footprint(), batch
    {
      NothingLeft() && batch.Table() && OwnBiases(Reqs(), batch.Biases())
    }

    /** Slots and biases, as far as they are worth knowing: only while no bias has been left behind. */
    ghost function BatchSlots(): Slots
      reads batch
      requires batch.Table()
    {
      if NothingLeft() then Tidy(batch.index, batch.Biases()) else Untracked
    }

    lemma SitsIs(t: Slots)
      requires batch.Table()
      ensures Sits(t)
              <==> (t.Tidy? ==> batch.index == t.index && NothingLeft() && batch.Biases() == t.biases)
    {}

    /** The batch holds these rows, and the listed slots are its holes. */
    ghost predicate Freed(rows: map<ReqId, Row>, free: seq<nat>, t: Slots)
      reads batch, batch.tokenIds
    {
      batch.Holding() && batch.Rows() == rows && Frees(batch.reqIds, free) && Sits(t)
    }

    /** Take one request out of the batch, noting the slot it leaves. */
    method RemoveOne(id: ReqId, removed: seq<nat>, ghost rows: map<ReqId, Row>, ghost t: Slots) returns (free: seq<nat>)
      requires Freed(rows, removed, t)
      modifies batch
      ensures Freed(rows - {id}, free, t.Without({id}))
    {
      hide Sits, BiasMap, Clean, InputBatch.RowAt, SamplingScan, LoraScan, TableOf, Inverse;
      ghost var reqIds := batch.reqIds;
      SitsIs(t);
      var slot := batch.RemoveTracked(id);
      assert Without(old(batch.index), id) == old(batch.index) - {id};
      SitsIs(t.Without({id}));
      free := removed;
      if slot.Some? {
        FreesAfter(reqIds, free, slot.value);
        free := free + [slot.value];
      }
    }

    /** Take the finished requests out. */
    method RemoveFinished(ids: seq<ReqId>, ghost rows: map<ReqId, Row>, ghost t: Slots) returns (free: seq<nat>)
      requires Freed(rows, [], t)
      modifies batch
      ensures Freed(rows - IdSet(ids), free, t.Without(IdSet(ids)))
    {
      hide Freed;
      free := [];
      var k := 0;
      assert IdSet(ids[..0]) == {} && rows - {} == rows;
      WithoutTwice(t, {}, {});
      while k < |ids|
        invariant 0 <= k <= |ids|
        invariant Freed(rows - IdSet(ids[..k]), free, t.Without(IdSet(ids[..k])))
      {
        free := RemoveOne(ids[k], free, rows - IdSet(ids[..k]), t.Without(IdSet(ids[..k])));
        assert IdSet(ids[..k + 1]) == IdSet(ids[..k]) + {ids[k]};
        assert rows - IdSet(ids[..k + 1]) == rows - IdSet(ids[..k]) - {ids[k]};
        WithoutTwice(t, IdSet(ids[..k]), {ids[k]});
        k := k + 1;
      }
      assert ids[..k] == ids;
    }

    lemma FreedKeys(rows: map<ReqId, Row>, free: seq<nat>, t: Slots)
      requires Freed(rows, free, t)
      ensures batch.index.Keys == rows.Keys
    {}

    /** Take out the requests that this step does not schedule. */
    method RemoveUnscheduled(scheduled: set<ReqId>, removed: seq<nat>, ghost rows: map<ReqId, Row>, ghost t: Slots)
      returns (free: seq<nat>)
      requires Freed(rows, removed, t)
      modifies batch
      ensures Freed(rows - (rows.Keys - scheduled), free, t.Without(rows.Keys - scheduled))
    {
      hide Freed;
      free := removed;
      FreedKeys(rows, removed, t);
      var todo := batch.index.Keys - scheduled;
      ghost var all := todo;
      DropNone(rows, all);
      WithoutTwice(t, {}, {});
      assert all - all == {};
      while todo != {}
        invariant todo <= all && Freed(rows - (all - todo), free, t.Without(all - todo))
        decreases |todo|
      {
        var id :| id in todo;
        free := RemoveOne(id, free, rows - (all - todo), t.Without(all - todo));
        DropOneMore(rows, all, todo, id);
        WithoutTwice(t, all - todo, {id});
        assert all - todo + {id} == all - (todo - {id});
        todo := todo - {id};
      }
      DropNone(rows, all);
    }

    lemma HeldIs(reqs: map<ReqId, Req>)
      requires Filed() && reqs.Keys == requests.Keys && forall id | id in requests :: requests[id].Snap() == reqs[id]
      ensures Held(reqs)
    {}

    lemma HeldAt(reqs: map<ReqId, Req>)
      requires Held(reqs)
      ensures Filed() && reqs.Keys == requests.Keys && forall id | id in requests :: requests[id].Snap() == reqs[id]
    {}

    lemma ReqsAre(reqs: map<ReqId, Req>)
      requires reqs.Keys == requests.Keys && forall id | id in requests :: requests[id].Snap() == reqs[id]
      ensures Reqs() == reqs
    {}

    lemma ReqsAt(id: ReqId)
      requires id in requests
      ensures Reqs()[id] == requests[id].Snap()
    {}

    method MakeRequest(n: NewRequest) returns (request: CachedRequest)
      ensures fresh(request) && fresh(request.output) && request.id == n.id
      ensures request.Snap() == Fresh(n) && request.sampling == n.sampling
    {
      request := new CachedRequest(n.id, n.prompt, n.sampling, n.Generator(), n.lora, n.computed, n.blocks);
    }

    /** File a new request. */
    method RegisterOne(n: NewRequest)
      modifies `requests
      ensures Reqs() == old(Reqs())[n.id := Fresh(n)]
      ensures old(Filed()) ==> Filed()
      ensures n.id in requests && Lists() == old(Lists())[n.id := requests[n.id].output]
      ensures fresh(requests[n.id]) && fresh(requests[n.id].output)
      ensures requests == old(requests)[n.id := requests[n.id]]
    {
      hide ListsOf, ModelRunner.Reqs, Fresh;
      ghost var reqs := Reqs()[n.id := Fresh(n)];
      forall id | id in requests ensures Reqs()[id] == requests[id].Snap() {
        ReqsAt(id);
      }
      var request := MakeRequest(n);
      ListsPut(requests, n.id, request);
      requests := requests[n.id := request];
      ReqsAre(reqs);
    }

    method RegisterLinked(n: NewRequest, ghost reqs: map<ReqId, Req>, ghost rows: map<ReqId, Row>)
      requires Held(reqs) && Linking(reqs, rows) && n.id !in rows && Fits(Fresh(n), batch.maxLen)
      modifies `requests
      ensures Held(reqs[n.id := Fresh(n)]) && Linking(reqs[n.id := Fresh(n)], rows)
      ensures fresh(Footprint() - old(Footprint()))
    {
      hide Linked, Fits, Fresh, Reqs, Filed;
      RegisterOne(n);
      NewLinked(reqs, old(Lists()), rows, batch.vocab, batch.maxLen, n.id, Fresh(n), requests[n.id].output);
    }

    method RegisterNew(news: seq<NewRequest>, ghost reqs: map<ReqId, Req>, ghost rows: map<ReqId, Row>)
      requires Held(reqs) && Linking(reqs, rows)
      requires forall n | n in news :: n.id !in rows && Fits(Fresh(n), batch.maxLen)
      modifies `requests
      ensures Held(WithNew(reqs, news, |news|)) && Linking(WithNew(reqs, news, |news|), rows)
      ensures fresh(Footprint() - old(Footprint()))
    {
      hide Held, Linking, Fits, Fresh, Footprint;
      var k := 0;
      while k < |news|
        invariant 0 <= k <= |news| && Held(WithNew(reqs, news, k)) && Linking(WithNew(reqs, news, k), rows)
        invariant fresh(Footprint() - old(Footprint()))
      {
        label Before:
        RegisterLinked(news[k], WithNew(reqs, news, k), rows);
        forall o | o in Footprint() && o !in old(Footprint()) && o !in old@Before(Footprint()) ensures fresh(o) {
          assert fresh@Before(o);
        }
        k := k + 1;
      }
    }

    /** Forget the finished requests. */
    method Forget(ids: seq<ReqId>)
      modifies `requests
      ensures requests == old(requests) - IdSet(ids)
    {
      var k := 0;
      while k < |ids|
        invariant 0 <= k <= |ids| && requests == old(requests) - IdSet(ids[..k])
      {
        requests := requests - {ids[k]};
        assert IdSet(ids[..k + 1]) == IdSet(ids[..k]) + {ids[k]};
        k := k + 1;
      }
      assert ids[..k] == ids;
    }

    method ForgetLinked(ids: seq<ReqId>, ghost reqs: map<ReqId, Req>, ghost rows: map<ReqId, Row>)
      requires Held(reqs) && Linking(reqs, rows)
      modifies `requests
      ensures Held(reqs - IdSet(ids)) && Linking(reqs - IdSet(ids), rows - IdSet(ids))
      ensures Footprint() <= old(Footprint())
    {
      hide Linked, IdSet;
      LessLinked(reqs, Lists(), rows, batch.vocab, batch.maxLen, IdSet(ids), IdSet(ids));
      ListsDrop(requests, IdSet(ids));
      Forget(ids);
      assert Reqs() == reqs - IdSet(ids);
    }

    lemma LinkingLess(reqs: map<ReqId, Req>, rows: map<ReqId, Row>, dropped: set<ReqId>)
      requires Linking(reqs, rows)
      ensures Linking(reqs, rows - dropped)
    {
      LessLinked(reqs, Lists(), rows, batch.vocab, batch.maxLen, {}, dropped);
      assert reqs - {} == reqs && Lists() - {} == Lists();
    }

    /** Record an update in the request. */
    method UpdateRequest(u: CachedUpdate, ghost reqs: map<ReqId, Req>)
      requires Held(reqs) && u.id in requests && u.id in reqs && (u.resumed ==> u.blocks.Some?)
      modifies requests[u.id]
      ensures Held(reqs[u.id := Updated(reqs[u.id], u)])
    {
      hide Held, Updated;
      HeldAt(reqs);
      AdvanceIsUpdate(reqs[u.id], u);
      requests[u.id].Advance(u.computed, u.blocks, u.resumed);
      HeldIs(reqs[u.id := Updated(reqs[u.id], u)]);
    }

    /** Record an update in the batch, if it holds the request. */
    method UpdateRow(u: CachedUpdate, ghost rows: map<ReqId, Row>, ghost free: seq<nat>, ghost t: Slots)
      returns (present: bool)
      requires Freed(rows, free, t)
      modifies batch`columns
      ensures present <==> u.id in rows
      ensures Freed(UpdatedRows(rows, u), free, t)
    {
      hide Frees, Extended, InputBatch.Table, InputBatch.RowAt, SamplingScan, LoraScan, TableOf, Inverse;
      FreedKeys(rows, free, t);
      present := u.id in batch.index;
      if present {
        batch.Progress(u.id, u.computed, u.blocks);
      }
    }

    method UpdateLinked(u: CachedUpdate, ghost reqs: map<ReqId, Req>, ghost rows: map<ReqId, Row>, ghost free: seq<nat>,
                        ghost t: Slots)
      returns (present: bool)
      requires Held(reqs) && Linking(reqs, rows) && Freed(rows, free, t)
      requires u.id in requests && u.id in reqs && (u.resumed ==> u.blocks.Some? && u.id !in rows)
      modifies requests[u.id], batch`columns
      ensures present <==> u.id in rows
      ensures Held(reqs[u.id := Updated(reqs[u.id], u)])
              && Linking(reqs[u.id := Updated(reqs[u.id], u)], UpdatedRows(rows, u))
      ensures Freed(UpdatedRows(rows, u), free, t)
    {
      hide Freed, Held, Linked;
      UpdatedLinked(reqs, Lists(), rows, batch.vocab, batch.maxLen, u);
      UpdateRequest(u, reqs);
      BatchApart();
      present := UpdateRow(u, rows, free, t);
    }

    lemma HeldKeys(reqs: map<ReqId, Req>)
      requires Held(reqs)
      ensures requests.Keys == reqs.Keys
    {}

    /** The first k updates are recorded, and the ids to add so far are picked. */
    ghost predicate Updating(so: SchedulerOutput, reqs: map<ReqId, Req>, live: set<ReqId>, rows: map<ReqId, Row>,
                             free: seq<nat>, t: Slots, toAdd: seq<ReqId>, k: nat)
      reads Footprint(), batch, batch.tokenIds
      requires k <= |so.cached|
    {
      && Held(WithCached(reqs, so.cached, k)) && Linking(WithCached(reqs, so.cached, k), rows)
      && Freed(rows, free, t) && rows.Keys == live
      && Picks(so.Ids(), |so.news| + k, toAdd, live)
    }

    lemma UpdatingStart(so: SchedulerOutput, reqs: map<ReqId, Req>, rows: map<ReqId, Row>, free: seq<nat>, t: Slots,
                        toAdd: seq<ReqId>)
      requires Held(reqs) && Linking(reqs, rows) && Freed(rows, free, t) && Ready(so, reqs, rows.Keys)
      requires toAdd == so.Ids()[..|so.news|]
      ensures Updating(so, reqs, rows.Keys, rows, free, t, toAdd, 0)
    {
      PickNew(so, rows.Keys);
    }

    method UpdateNext(so: SchedulerOutput, ghost reqs: map<ReqId, Req>, ghost live: set<ReqId>,
                      ghost rows: map<ReqId, Row>,
                      ghost free: seq<nat>, ghost t: Slots, toAdd: seq<ReqId>, k: nat)
      returns (toAdd': seq<ReqId>)
      requires k < |so.cached| && Ready(so, reqs, live) && Updating(so, reqs, live, rows, free, t, toAdd, k)
      modifies requests.Values, batch`columns
      ensures Updating(so, reqs, live, UpdatedRows(rows, so.cached[k]), free, t, toAdd', k + 1)
    {
      hide Held, Linking, Freed, Updated, Picks, UpdatedRows, Ready, WithCached;
      var u := so.cached[k];
      PickUpdate(so, reqs, live, toAdd, k);
      HeldKeys(WithCached(reqs, so.cached, k));
      var present := UpdateLinked(u, WithCached(reqs, so.cached, k), rows, free, t);
      toAdd' := if present then toAdd else toAdd + [u.id];
    }

    /** Record the updates, and pick the requests that have to enter the batch: new ones first. */
    method UpdateCached(so: SchedulerOutput, ghost reqs: map<ReqId, Req>, ghost rows: map<ReqId, Row>,
                        ghost free: seq<nat>, ghost t: Slots)
      returns (toAdd: seq<ReqId>, ghost rows': map<ReqId, Row>)
      requires Held(reqs) && Linking(reqs, rows) && Freed(rows, free, t) && Ready(so, reqs, rows.Keys)
      modifies requests.Values, batch`columns
      ensures Updating(so, reqs, rows.Keys, rows', free, t, toAdd, |so.cached|)
    {
      hide Updating, UpdatedRows, Held, Linking, Freed, Footprint, Ready;
      rows' := rows;
      toAdd := so.Ids()[..|so.news|];
      UpdatingStart(so, reqs, rows, free, t, toAdd);
      var k := 0;
      while k < |so.cached|
        invariant 0 <= k <= |so.cached|
        invariant Updating(so, reqs, rows.Keys, rows', free, t, toAdd, k)
      {
        toAdd := UpdateNext(so, reqs, rows.Keys, rows', free, t, toAdd, k);
        rows' := UpdatedRows(rows', so.cached[k]);
        k := k + 1;
      }
    }

    /** The batch holds these rows, and the listed slots, largest first, are its holes. */
    ghost predicate Adding(rows: map<ReqId, Row>, holes: seq<nat>, t: Slots)
      reads batch, batch.tokenIds
    {
      batch.Holding() && batch.Rows() == rows && ListsHoles(batch.reqIds, holes) && Sits(t)
    }

    /** A request goes into the smallest hole, or to the end if there is none; the table never outgrows its size. */
    method AddOne(id: ReqId, holes: seq<nat>, ghost rows: map<ReqId, Row>, ghost t: Slots, ghost scheduled: set<ReqId>)
      returns (rest: seq<nat>, slot: nat)
      requires id in requests && Fits(requests[id].Snap(), batch.maxLen) && requests[id].id == id
      requires Adding(rows, holes, t) && id !in rows && rows.Keys <= scheduled && id in scheduled
               && |scheduled| <= batch.maxReqs
      modifies batch, batch.tokenIds
      ensures Adding(rows[id := RowOf(old(requests[id].Snap()), requests[id].output, batch.vocab)], rest,
                     t.With(id, slot, old(requests[id].sampling.logitBias)))
      ensures forall h | h in rest :: h in holes && slot < h
    {
      hide RowOf, ListsHoles, Inverse, SamplingScan, LoraScan, TableOf, PutAt, Sits, BiasMap, Clean, InputBatch.RowAt;
      SitsIs(t);
      FillHole(batch.reqIds, holes, id);
      var at: Option<nat> := None;
      rest := holes;
      if holes != [] {
        HolesAbove(batch.reqIds, holes);
        at, rest := Some(holes[|holes| - 1]), holes[..|holes| - 1];
        forall h | h in rest ensures h in holes && at.value < h {
          assert h in holes[..|holes| - 1];
        }
      } else {
        TableBounds(batch.reqIds, batch.index, batch.outputs, batch.columns, batch.optionals, batch.maxReqs,
                    batch.maxLen);
        NoHolesFull(batch.reqIds, batch.index);
        RoomForOne(batch.index.Keys, scheduled, id);
      }
      slot := batch.AddTracked(requests[id], at);
      SitsIs(t.With(id, slot, old(requests[id].sampling.logitBias)));
    }

    /** A request of the runner enters the batch with its own row. */
    method AddLinked(id: ReqId, holes: seq<nat>, ghost reqs: map<ReqId, Req>, ghost rows: map<ReqId, Row>,
                     ghost t: Slots, ghost scheduled: set<ReqId>)
      returns (rest: seq<nat>, ghost rows': map<ReqId, Row>, slot: nat)
      requires Held(reqs) && Linking(reqs, rows) && Adding(rows, holes, t) && id in reqs && id !in rows
      requires rows.Keys <= scheduled && id in scheduled && |scheduled| <= batch.maxReqs
      modifies batch, batch.tokenIds
      ensures Held(reqs) && Linking(reqs, rows')
      ensures Adding(rows', rest, t.With(id, slot, reqs[id].sampling.logitBias))
      ensures forall h | h in rest :: h in holes && slot < h
      ensures rows'.Keys == rows.Keys + {id}
    {
      hide Adding, Agree, Injective, RowOf;
      BatchApart();
      AddedLinked(reqs, Lists(), rows, batch.vocab, batch.maxLen, id);
      rows' := rows[id := RowOf(reqs[id], Lists()[id], batch.vocab)];
      assert Fits(reqs[id], batch.maxLen);
      rest, slot := AddOne(id, holes, rows, t, scheduled);
    }

    lemma AddingKeys(rows: map<ReqId, Row>, holes: seq<nat>, t: Slots)
      requires Adding(rows, holes, t)
      ensures t.Tidy? ==> t.index.Keys == t.biases.Keys == rows.Keys
    {}

    /** Add the picked requests, smallest hole first. */
    method AddEach(toAdd: seq<ReqId>, holes: seq<nat>, ghost reqs: map<ReqId, Req>, ghost rows: map<ReqId, Row>,
                   ghost t: Slots, ghost scheduled: set<ReqId>)
      returns (rest: seq<nat>, ghost rows': map<ReqId, Row>, ghost t': Slots)
      requires Held(reqs) && Linking(reqs, rows) && Adding(rows, holes, t)
      requires NoDup(toAdd) && IdSet(toAdd) <= reqs.Keys && IdSet(toAdd) !! rows.Keys
      requires rows.Keys + IdSet(toAdd) <= scheduled && |scheduled| <= batch.maxReqs
      modifies batch, batch.tokenIds
      ensures Held(reqs) && Linking(reqs, rows') && Adding(rows', rest, t')
      ensures rows'.Keys == rows.Keys + IdSet(toAdd) && Entered(t, t', reqs, IdSet(toAdd), rest)
    {
      hide Held, Linking, Adding, Entered;
      rest, rows', t' := holes, rows, t;
      AddingKeys(rows, holes, t);
      EnterNone(t, reqs, holes);
      assert IdSet(toAdd[..0]) == {};
      var k := 0;
      while k < |toAdd|
        invariant 0 <= k <= |toAdd|
        invariant Held(reqs) && Linking(reqs, rows') && Adding(rows', rest, t')
        invariant rows'.Keys == rows.Keys + IdSet(toAdd[..k]) && Entered(t, t', reqs, IdSet(toAdd[..k]), rest)
      {
        NextToAdd(toAdd, k);
        AddingKeys(rows', rest, t');
        ghost var holes' := rest;
        var slot;
        rest, rows', slot := AddLinked(toAdd[k], rest, reqs, rows', t', scheduled);
        EnterNext(t, t', reqs, IdSet(toAdd[..k]), holes', rest, toAdd[k], slot);
        t' := t'.With(toAdd[k], slot, reqs[toAdd[k]].sampling.logitBias);
        k := k + 1;
      }
      assert toAdd[..k] == toAdd;
    }

    lemma SettledIs(holes: seq<nat>, t: Slots)
      requires batch.Table()
      requires t.Tidy? ==>
                 && batch.Biases() == t.biases && batch.index.Keys == t.index.Keys
                 && (NothingLeft() <==> NonePast(t.index, t.biases, |t.index|))
                 && (forall id | id in t.index && t.index[id] < |t.index| :: batch.index[id] == t.index[id])
                 && (forall id | id in t.index && (forall h | h in holes :: t.index[id] < h) :: t.index[id] < |t.index|)
      ensures Settled(t, holes, batch.reqIds, batch.index, batch.columns.logitBias)
    {
      hide Clean;
    }

    lemma LowSlots(holes: seq<nat>, t: Slots)
      requires batch.Holding() && ListsHoles(batch.reqIds, holes) && Sits(t)
      ensures t.Tidy? ==> t.index.Keys == t.biases.Keys == batch.index.Keys
      ensures t.Tidy? ==>
                forall id | id in t.index && (forall h | h in holes :: t.index[id] < h) :: t.index[id] < |t.index|
    {
      hide BiasMap, Clean, InputBatch.RowAt, SamplingScan, LoraScan, ListsHoles;
      IndexSize(batch.reqIds, batch.index);
      if t.Tidy? {
        forall id | id in t.index && (forall h | h in holes :: t.index[id] < h) ensures t.index[id] < |t.index| {
          LowSlot(batch.reqIds, holes, t.index[id]);
        }
      }
    }

    /** Close the remaining holes. */
    method Finish(holes: seq<nat>, ghost rows: map<ReqId, Row>, ghost t: Slots)
      requires Adding(rows, holes, t)
      modifies batch, batch.tokenIds
      ensures batch.Valid() && batch.Rows() == rows
      ensures Settled(t, holes, batch.reqIds, batch.index, batch.columns.logitBias)
    {
      hide Sits, BiasMap, Clean, InputBatch.RowAt, SamplingScan, LoraScan, TableOf, Inverse, ListsHoles, Settled;
      SitsIs(t);
      LowSlots(holes, t);
      if holes != [] {
        batch.CondenseTracked(holes);
      } else {
        NoneEmpty(batch.reqIds);
      }
      SettledIs(holes, t);
    }

    /** Forget the finished requests, and take out those that are finished or not scheduled. */
    method Clear(so: SchedulerOutput, ghost reqs: map<ReqId, Req>, ghost rows: map<ReqId, Row>, ghost t: Slots)
      returns (free: seq<nat>, ghost rows': map<ReqId, Row>, paused: bool)
      requires Held(reqs) && Linking(reqs, rows) && Freed(rows, [], t)
      modifies `requests, batch
      ensures Held(reqs - IdSet(so.finished)) && Linking(reqs - IdSet(so.finished), rows')
      ensures Freed(rows', free, t.Without(Leaving(rows.Keys, so)))
      ensures rows'.Keys == Staying(rows.Keys, so)
      ensures paused <==> rows.Keys - IdSet(so.finished) - so.scheduled.Keys != {}
      ensures Footprint() <= old(Footprint())
    {
      hide Held, Linking, Freed, IdSet;
      ghost var unfinished := rows - IdSet(so.finished);
      StayingRows(rows, so);
      ForgetLinked(so.finished, reqs, rows);
      BatchApart();
      free := RemoveFinished(so.finished, rows, t);
      ghost var t' := t.Without(IdSet(so.finished));
      FreedKeys(unfinished, free, t');
      BatchApart();
      paused := batch.index.Keys - so.scheduled.Keys != {};
      free := RemoveUnscheduled(so.scheduled.Keys, free, unfinished, t');
      WithoutTwice(t, IdSet(so.finished), unfinished.Keys - so.scheduled.Keys);
      assert unfinished.Keys == rows.Keys - IdSet(so.finished);
      LinkingLess(reqs - IdSet(so.finished), unfinished, unfinished.Keys - so.scheduled.Keys);
      rows' := unfinished - (unfinished.Keys - so.scheduled.Keys);
    }

    /** File the new requests, and record the updates. */
    method Learn(so: SchedulerOutput, ghost reqs: map<ReqId, Req>, ghost rows: map<ReqId, Row>, ghost free: seq<nat>,
                 ghost t: Slots)
      returns (toAdd: seq<ReqId>, ghost rows': map<ReqId, Row>)
      requires Held(reqs) && Linking(reqs, rows) && Freed(rows, free, t)
      requires forall n | n in so.news :: n.id !in rows && Fits(Fresh(n), batch.maxLen)
      requires Ready(so, WithNew(reqs, so.news, |so.news|), rows.Keys)
      modifies Footprint(), batch`columns
      ensures Updating(so, WithNew(reqs, so.news, |so.news|), rows.Keys, rows', free, t, toAdd, |so.cached|)
      ensures fresh(Footprint() - old(Footprint()))
    {
      hide Held, Linking, Freed, Ready, Updating, Fits, Fresh;
      RegisterNew(so.news, reqs, rows);
      toAdd, rows' := UpdateCached(so, WithNew(reqs, so.news, |so.news|), rows, free, t);
    }

    lemma Sorted(rows: map<ReqId, Row>, free: seq<nat>, t: Slots)
      requires Freed(rows, free, t)
      ensures NoDup(free) && Adding(rows, SortDescending(free), t)
    {
      FreesSorted(batch.reqIds, free);
    }

    lemma Built(reqs: map<ReqId, Req>)
      requires batch.Valid() && Held(reqs) && Linking(reqs, batch.Rows())
      ensures Valid() && Reqs() == reqs && batch.index.Keys == batch.Rows().Keys
    {}

    method Close(holes: seq<nat>, ghost reqs: map<ReqId, Req>, ghost rows: map<ReqId, Row>, ghost t: Slots)
      requires Held(reqs) && Linking(reqs, rows) && Adding(rows, holes, t)
      modifies batch, batch.tokenIds
      ensures Valid() && Reqs() == reqs && batch.index.Keys == rows.Keys
      ensures Settled(t, holes, batch.reqIds, batch.index, batch.columns.logitBias)
    {
      hide Held, Linking, Adding, Valid, Reqs, Settled;
      BatchApart();
      Finish(holes, rows, t);
      Built(reqs);
    }

    /** Let the picked requests in, and close the holes that are left. */
    method Enter(toAdd: seq<ReqId>, free: seq<nat>, ghost reqs: map<ReqId, Req>, ghost rows: map<ReqId, Row>,
                 ghost t: Slots, ghost scheduled: set<ReqId>)
      requires Held(reqs) && Linking(reqs, rows) && Freed(rows, free, t) && rows.Keys <= reqs.Keys
      requires Completes(toAdd, reqs.Keys, rows.Keys, scheduled, batch.maxReqs)
      modifies batch, batch.tokenIds
      ensures Valid() && Reqs() == reqs && batch.index.Keys == scheduled
      ensures Seats(t, reqs, batch.reqIds, batch.index, batch.columns.logitBias)
    {
      hide Held, Linking, Freed, Adding, IdSet, NoDup, Valid, Reqs, Entered, Settled, Seats;
      Sorted(rows, free, t);
      ghost var rows', t';
      var rest;
      rest, rows', t' := AddEach(toAdd, SortDescending(free), reqs, rows, t, scheduled);
      Close(rest, reqs, rows', t');
      EnteredSeats(t, t', reqs, IdSet(toAdd), rest, batch.reqIds, batch.index, batch.columns.logitBias);
    }

    /** What the scheduler says, taken in up to the point where requests enter. */
    method Absorb(so: SchedulerOutput, ghost reqs: map<ReqId, Req>, ghost rows: map<ReqId, Row>, ghost t: Slots)
      returns (toAdd: seq<ReqId>, free: seq<nat>, paused: bool, ghost rows': map<ReqId, Row>)
      requires Held(reqs) && Linking(reqs, rows) && Freed(rows, [], t)
      requires Legal(reqs, rows.Keys, so, batch.maxReqs, batch.maxLen) && rows.Keys <= reqs.Keys
      modifies Footprint(), batch
      ensures Held(NextRequests(reqs, so)) && Linking(NextRequests(reqs, so), rows')
      ensures Freed(rows', free, t.Without(Leaving(rows.Keys, so)))
      ensures rows'.Keys == Staying(rows.Keys, so) && Picks(so.Ids(), |so.Ids()|, toAdd, rows'.Keys)
      ensures paused <==> rows.Keys - IdSet(so.finished) - so.scheduled.Keys != {}
      ensures fresh(Footprint() - old(Footprint()))
    {
      hide Held, Linking, Freed, Legal, Ready, Fits, Fresh, Staying, Picks, IdSet, Footprint;
      PlanReady(reqs, rows.Keys, so, batch.maxReqs, batch.maxLen);
      BatchApart();
      free, rows', paused := Clear(so, reqs, rows, t);
      label Cleared:
      toAdd, rows' := Learn(so, reqs - IdSet(so.finished), rows', free, t.Without(Leaving(rows.Keys, so)));
      forall o | o in Footprint() && o !in old(Footprint()) ensures fresh(o) {
        assert fresh@Cleared(o);
      }
    }

    lemma LinkedKnown(reqs: map<ReqId, Req>, rows: map<ReqId, Row>)
      requires Linking(reqs, rows)
      ensures rows.Keys <= reqs.Keys
    {
      LiveKnown(reqs, Lists(), rows, batch.vocab, batch.maxLen);
    }

    lemma ValidParts()
      requires Valid()
      ensures Held(Reqs()) && Linking(Reqs(), batch.Rows()) && Freed(batch.Rows(), [], BatchSlots())
      ensures batch.Rows().Keys == batch.index.Keys <= Reqs().Keys
    {
      LiveKnown(Reqs(), Lists(), batch.Rows(), batch.vocab, batch.maxLen);
    }

    method Take(so: SchedulerOutput, ghost reqs: map<ReqId, Req>, ghost rows: map<ReqId, Row>, ghost t: Slots)
      returns (changed: bool)
      requires Held(reqs) && Linking(reqs, rows) && Freed(rows, [], t)
      requires Legal(reqs, rows.Keys, so, batch.maxReqs, batch.maxLen) && rows.Keys <= reqs.Keys
      modifies Footprint(), batch, batch.tokenIds
      ensures Valid() && Reqs() == NextRequests(reqs, so) && batch.index.Keys == so.scheduled.Keys
      ensures Seats(t.Without(Leaving(rows.Keys, so)), NextRequests(reqs, so), batch.reqIds, batch.index,
                    batch.columns.logitBias)
      ensures fresh(Footprint() - old(Footprint()))
      ensures !changed <==> rows.Keys - IdSet(so.finished) == so.scheduled.Keys
    {
      hide Held, Linking, Freed, Legal, NextRequests, Picks, Valid, Reqs, Staying, IdSet, Completes, Footprint;
      var toAdd, free, paused;
      ghost var rows';
      toAdd, free, paused, rows' := Absorb(so, reqs, rows, t);
      PlanComplete(reqs, rows.Keys, so, batch.maxReqs, batch.maxLen, toAdd);
      NothingReported(rows.Keys, so, toAdd, NextRequests(reqs, so).Keys, batch.maxReqs);
      LinkedKnown(NextRequests(reqs, so), rows');
      Enter(toAdd, free, NextRequests(reqs, so), rows', t.Without(Leaving(rows.Keys, so)), so.scheduled.Keys);
      changed := paused || toAdd != [];
    }

    lemma TablePart()
      requires Valid()
      ensures batch.Table()
    {}

    /** Bring requests and batch up to the scheduler's word: exactly the scheduled requests are in the batch, each with
        its own row.  The result says whether a request left without being finished, or entered. */
    method BringUp(so: SchedulerOutput) returns (changed: bool)
      requires Valid() && Legal(Reqs(), batch.index.Keys, so, batch.maxReqs, batch.maxLen)
      modifies Footprint(), batch, batch.tokenIds
      ensures Valid() && Reqs() == NextRequests(old(Reqs()), so) && batch.index.Keys == so.scheduled.Keys
      ensures fresh(Footprint() - old(Footprint()))
      ensures !changed <==> old(batch.index.Keys) - IdSet(so.finished) == so.scheduled.Keys
      ensures old(Tidied()) ==>
                && OwnBiases(Reqs(), batch.Biases())
                && (NothingLeft() <==> !MovesBias(old(Reqs()), old(batch.index), so))
                && forall id | id in Staying(old(batch.index).Keys, so) && old(batch.index)[id] < |so.scheduled| ::
                     batch.index[id] == old(batch.index)[id]
    {
      hide Held, Linking, Freed, Legal, NextRequests, Valid, Reqs, IdSet, Footprint, Seats, OwnBiases, MovesBias,
        Clean;
      TablePart();
      ValidParts();
      ghost var reqs, rows, places, t := Reqs(), batch.Rows(), batch.index, BatchSlots();
      ghost var tidied, biases := Tidied(), batch.Biases();
      changed := Take(so, reqs, rows, t);
      if tidied {
        SeatsOwn(places, biases, reqs, so, batch.maxReqs, batch.maxLen, batch.reqIds, batch.index,
                 batch.columns.logitBias);
      }
    }

    /** What the records say, one by one. */
    lemma RecordIs(id: ReqId)
      requires id in requests
      ensures id in Reqs()
      ensures var q, r := Reqs()[id], requests[id];
              && q.prompt == r.prompt && q.output == r.output.ids && q.sampling == r.sampling
              && q.generator == r.generator && q.lora == r.lora && q.computed == r.computed && q.blocks == r.blocks
    {}

    lemma ValidSized()
      requires Valid()
      ensures batch.columns.Sized(batch.maxReqs)
    {}

    /** Its slot holds its prompt and output and everything else its row says (but for the token count that sampling
        leaves behind), and the very list its outputs go to. */
    lemma SlotIsOwn(id: ReqId)
      requires Valid() && id in batch.index
      ensures id in requests && batch.Full(batch.index[id]) && batch.reqIds[batch.index[id]] == Some(id)
      ensures Same(batch.RowAt(batch.index[id]), RowOf(requests[id].Snap(), requests[id].output, batch.vocab))
    {
      assert id in batch.Rows() && batch.Rows()[id] == batch.RowAt(batch.index[id]);
      assert Reqs()[id] == requests[id].Snap();
    }

    /** A live request's slot, column by column: its progress and parameters. */
    lemma SlotReads(id: ReqId)
      requires Valid() && id in batch.index
      ensures id in requests && batch.columns.Sized(batch.maxReqs) && batch.index[id] < batch.maxReqs
      ensures var i, c, q, p := batch.index[id], batch.columns, requests[id], requests[id].sampling;
              && c.computed[i] == q.computed && c.blocks[i] == q.blocks
              && c.temperature[i] == (if p.temperature < 0.00001 then 0.0 else p.temperature)
              && c.topP[i] == p.topP && c.minP[i] == p.minP
              && c.topK[i] == (if 0 < p.topK < batch.vocab then p.topK else batch.vocab)
              && c.frequency[i] == p.frequency && c.presence[i] == p.presence && c.repetition[i] == p.repetition
              && c.lora[i] == if q.lora.Some? then q.lora.value else 0
    {
      hide Inverse, SamplingScan, LoraScan, Agree, Injective;
      SlotIsOwn(id);
    }

    /** The batch's progress and blocks are the requests'. */
    lemma ProgressIsOwn()
      requires Valid()
      ensures batch.columns.Sized(batch.maxReqs)
      ensures forall id | id in batch.index ::
                && id in requests && batch.index[id] < batch.maxReqs
                && batch.columns.computed[batch.index[id]] == requests[id].computed
                && batch.columns.blocks[batch.index[id]] == requests[id].blocks
    {
      hide Valid;
      ValidSized();
      forall id | id in batch.index
        ensures id in requests && batch.index[id] < batch.maxReqs
        ensures batch.columns.computed[batch.index[id]] == requests[id].computed
        ensures batch.columns.blocks[batch.index[id]] == requests[id].blocks
      {
        SlotReads(id);
      }
    }

    /** The whole update, request by request: one the scheduler has sent before goes on with its blocks, or starts over
        with new ones; a new one is as it was sent; a finished one is forgotten; the others are as they were. */
    method UpdateStates(so: SchedulerOutput) returns (changed: bool)
      requires Valid() && Legal(Reqs(), batch.index.Keys, so, batch.maxReqs, batch.maxLen)
      modifies Footprint(), batch, batch.tokenIds
      ensures forall u | u in so.cached ::
                && u.id in old(requests) && u.id in requests && requests[u.id].computed == u.computed
                && (!u.resumed ==> requests[u.id].blocks == old(requests[u.id].blocks)
                                                            + if u.blocks.Some? then u.blocks.value else [])
                && (u.resumed ==> u.blocks.Some? && requests[u.id].blocks == u.blocks.value)
                && requests[u.id].prompt == old(requests[u.id].prompt)
                && requests[u.id].output.ids == old(requests[u.id].output.ids)
      ensures forall n | n in so.news ::
                && n.id in requests && requests[n.id].prompt == n.prompt && requests[n.id].output.ids == []
                && requests[n.id].sampling == n.sampling && requests[n.id].lora == n.lora
                && requests[n.id].computed == n.computed && requests[n.id].blocks == n.blocks
      ensures forall id | (forall n | n in so.news :: n.id != id) ::
                id in requests <==> id in old(requests) && id !in so.finished
      ensures forall id | id in requests && id !in so.scheduled ::
                && id in old(requests) && requests[id].output.ids == old(requests[id].output.ids)
                && requests[id].computed == old(requests[id].computed)
                && requests[id].blocks == old(requests[id].blocks)
      ensures batch.columns.Sized(batch.maxReqs)
      ensures forall id | id in batch.index ::
                && id in requests && batch.index[id] < batch.maxReqs
                && batch.columns.computed[batch.index[id]] == requests[id].computed
                && batch.columns.blocks[batch.index[id]] == requests[id].blocks
      ensures Valid() && Reqs() == NextRequests(old(Reqs()), so) && batch.index.Keys == so.scheduled.Keys
      ensures fresh(Footprint() - old(Footprint()))
      ensures !changed <==> old(batch.index.Keys) - IdSet(so.finished) == so.scheduled.Keys
      ensures old(Tidied()) ==>
                && OwnBiases(Reqs(), batch.Biases())
                && (NothingLeft() <==> !MovesBias(old(Reqs()), old(batch.index), so))
                && forall id | id in Staying(old(batch.index).Keys, so) && old(batch.index)[id] < |so.scheduled| ::
                     batch.index[id] == old(batch.index)[id]
    {
      hide Valid, Legal, NextRequests, Reqs, Footprint, OwnBiases, MovesBias, Staying, Tidied, NothingLeft, IdSet;
      ghost var reqs, live := Reqs(), batch.index.Keys;
      forall id | id in requests ensures id in reqs {
        RecordIs(id);
      }
      forall id | id in requests
        ensures var q, r := reqs[id], requests[id];
                q.prompt == r.prompt && q.output == r.output.ids && q.computed == r.computed && q.blocks == r.blocks
      {
        RecordIs(id);
      }
      changed := BringUp(so);
      ProgressIsOwn();
      forall id | id in requests ensures id in Reqs() {
        RecordIs(id);
      }
      forall u | u in so.cached
        ensures u.id in reqs && u.id in requests && requests[u.id].computed == u.computed
        ensures !u.resumed ==>
                  requests[u.id].blocks == reqs[u.id].blocks + if u.blocks.Some? then u.blocks.value else []
        ensures u.resumed ==> u.blocks.Some? && requests[u.id].blocks == u.blocks.value
        ensures requests[u.id].prompt == reqs[u.id].prompt && requests[u.id].output.ids == reqs[u.id].output
      {
        NextOfCached(reqs, live, so, batch.maxReqs, batch.maxLen, u);
        RecordIs(u.id);
      }
      forall n | n in so.news
        ensures n.id in requests && requests[n.id].prompt == n.prompt && requests[n.id].output.ids == []
        ensures requests[n.id].sampling == n.sampling && requests[n.id].lora == n.lora
        ensures requests[n.id].computed == n.computed && requests[n.id].blocks == n.blocks
      {
        NextOfNew(reqs, live, so, batch.maxReqs, batch.maxLen, n);
        RecordIs(n.id);
      }
      forall id | forall n | n in so.news :: n.id != id
        ensures id in requests <==> id in reqs && id !in so.finished
      {
        KnownAfter(reqs, live, so, batch.maxReqs, batch.maxLen, id);
      }
      forall id | id in requests && id !in so.scheduled
        ensures id in reqs && requests[id].output.ids == reqs[id].output
        ensures requests[id].computed == reqs[id].computed && requests[id].blocks == reqs[id].blocks
      {
        Unscheduled(reqs, live, so, batch.maxReqs, batch.maxLen, id);
        RecordIs(id);
      }
    }

    // ---- the bookkeeping of sample_tokens ----

    /** Split the slots: those whose request the step completes, and those of partial prefills. */
    method CollectDue(scheduled: map<ReqId, nat>, ghost reqs: map<ReqId, Req>)
      returns (due: seq<Pending>, partial: seq<nat>)
      requires Held(reqs) && Seated(batch.reqIds, |batch.reqIds|, reqs, scheduled)
      ensures due == Pendings(batch.reqIds, |batch.reqIds|, reqs, scheduled)
      ensures partial == Partial(batch.reqIds, |batch.reqIds|, reqs, scheduled)
    {
      due, partial := [], [];
      var i := 0;
      while i < |batch.reqIds|
        invariant 0 <= i <= |batch.reqIds|
        invariant due == Pendings(batch.reqIds, i, reqs, scheduled)
                  && partial == Partial(batch.reqIds, i, reqs, scheduled)
      {
        var id := batch.reqIds[i].value;
        assert id in reqs && requests[id].Snap() == reqs[id];
        var seqLen := requests[id].computed + scheduled[id];
        if seqLen >= requests[id].NumTokens() {
          due := due + [Pending(i, id, seqLen)];
        } else {
          partial := partial + [i];
        }
        i := i + 1;
      }
    }

    /** The batch holds these rows, without holes. */
    ghost predicate Full(rows: map<ReqId, Row>)
      reads batch, batch.tokenIds
    {
      batch.Valid() && batch.Rows() == rows
    }

    /** The batch holds these rows without holes, and they are the runner's requests'. */
    ghost predicate Paired(reqs: map<ReqId, Req>, rows: map<ReqId, Row>)
      reads Footprint(), batch, batch.tokenIds
    {
      Full(rows) && Held(reqs) && Linking(reqs, rows)
    }

    lemma FullKeys(rows: map<ReqId, Row>)
      requires Full(rows)
      ensures batch.index.Keys == rows.Keys
    {}

    /** Append to the output list of one request; no other request has that list. */
    method GrowRequest(id: ReqId, token: int, ghost reqs: map<ReqId, Req>)
      requires Held(reqs) && Injective(Lists()) && id in requests && id in reqs
      modifies requests[id].output
      ensures Held(reqs[id := Grow(reqs[id], token)])
    {
      hide Held, Grow, Injective;
      HeldAt(reqs);
      OwnList(requests, id);
      GrowIs(reqs[id], token);
      requests[id].output.Append(token);
      HeldIs(reqs[id := Grow(reqs[id], token)]);
    }

    method GrowRequestOnly(id: ReqId, token: int, ghost reqs: map<ReqId, Req>, ghost rows: map<ReqId, Row>)
      requires Held(reqs) && Injective(Lists()) && id in requests && id in reqs && Full(rows)
      modifies requests[id].output
      ensures Held(reqs[id := Grow(reqs[id], token)]) && Full(rows)
    {
      hide Held, Full, ListsOf, Injective;
      GrowRequest(id, token, reqs);
    }

    /** Append to the token row of one request. */
    method GrowRow(p: Pending, token: int, ghost rows: map<ReqId, Row>)
      requires Full(rows)
      requires p.id in batch.index && batch.index[p.id] == p.slot && p.id in rows
               && p.seqLen == |rows[p.id].tokens| < batch.maxLen
      modifies batch`columns, batch.tokenIds
      ensures Full(Lengthened(rows, p.id, token)) && batch.columns.logitBias == old(batch.columns.logitBias)
    {
      batch.AppendToken(p.id, p.slot, p.seqLen, token);
    }

    method GrowRowOnly(p: Pending, token: int, ghost reqs: map<ReqId, Req>, ghost rows: map<ReqId, Row>)
      requires Full(rows) && Held(reqs)
      requires p.id in batch.index && batch.index[p.id] == p.slot && p.id in rows
               && p.seqLen == |rows[p.id].tokens| < batch.maxLen
      modifies batch`columns, batch.tokenIds
      ensures Full(Lengthened(rows, p.id, token)) && Held(reqs)
      ensures batch.columns.logitBias == old(batch.columns.logitBias)
    {
      hide Held, Full;
      BatchApart();
      GrowRow(p, token, rows);
    }

    lemma PairedParts(p: Pending, token: int, reqs: map<ReqId, Req>, rows: map<ReqId, Row>)
      requires Paired(reqs, rows) && p.id in batch.index && p.id in reqs && reqs[p.id].NumTokens() < batch.maxLen
      ensures Full(rows) && Held(reqs) && Injective(Lists())
      ensures p.id in rows && |rows[p.id].tokens| == reqs[p.id].NumTokens()
      ensures Linking(reqs[p.id := Grow(reqs[p.id], token)], Lengthened(rows, p.id, token))
    {
      FullKeys(rows);
      TokenLinked(reqs, Lists(), rows, batch.vocab, batch.maxLen, p.id, token);
    }

    lemma PairUp(reqs: map<ReqId, Req>, rows: map<ReqId, Row>)
      requires Full(rows) && Held(reqs) && Linking(reqs, rows)
      ensures Paired(reqs, rows)
    {}

    /** Hand one token to its request and to its row. */
    method GrowOne(p: Pending, token: int, ghost reqs: map<ReqId, Req>, ghost rows: map<ReqId, Row>)
      returns (ghost rows': map<ReqId, Row>)
      requires Paired(reqs, rows) && p.id in requests && p.id in reqs
      requires p.id in batch.index && batch.index[p.id] == p.slot && p.seqLen == reqs[p.id].NumTokens() < batch.maxLen
      modifies requests[p.id].output, batch`columns, batch.tokenIds
      ensures Paired(reqs[p.id := Grow(reqs[p.id], token)], rows')
      ensures batch.columns.logitBias == old(batch.columns.logitBias)
    {
      hide Paired, Linking, Full, Held, ListsOf, Footprint, Grow, Injective, Lengthened;
      PairedParts(p, token, reqs, rows);
      rows' := Lengthened(rows, p.id, token);
      GrowRowOnly(p, token, reqs, rows);
      GrowRequestOnly(p.id, token, reqs, rows');
      PairUp(reqs[p.id := Grow(reqs[p.id], token)], rows');
    }

    lemma PairedKeys(reqs: map<ReqId, Req>, rows: map<ReqId, Row>)
      requires Paired(reqs, rows)
      ensures requests.Keys == reqs.Keys
    {}

    lemma PairedValid(reqs: map<ReqId, Req>, rows: map<ReqId, Row>)
      requires Paired(reqs, rows)
      ensures Valid() && Reqs() == reqs
    {}

    lemma InFootprint(id: ReqId)
      requires id in requests
      ensures requests[id].output in Footprint() - {this}
    {}

    /** Hand every completed request its token. */
    method GrowAll(due: seq<Pending>, selected: seq<int>, ghost reqs: map<ReqId, Req>, ghost rows: map<ReqId, Row>)
      requires Paired(reqs, rows) && Usable(reqs, due, selected) && DistinctIds(due)
      requires Writable(due, batch.index, reqs, batch.maxLen)
      modifies Footprint() - {this}, batch`columns, batch.tokenIds
      ensures Valid() && Reqs() == Grown(reqs, due, selected, |due|)
      ensures batch.columns.logitBias == old(batch.columns.logitBias)
    {
      hide Paired, Usable, DistinctIds, Writable, Valid, Reqs, Footprint, Grown, Grow;
      PairedKeys(reqs, rows);
      GrownNone(reqs, due, selected);
      BatchApart();
      ghost var rows', index := rows, batch.index;
      var k := 0;
      while k < |due|
        invariant 0 <= k <= |due|
        invariant Paired(Grown(reqs, due, selected, k), rows') && batch.index == index
        invariant batch.columns.logitBias == old(batch.columns.logitBias)
      {
        GrowNext(due, selected, k, reqs, index, batch.maxLen);
        InFootprint(due[k].id);
        rows' := GrowOne(due[k], selected[due[k].slot], Grown(reqs, due, selected, k), rows');
        k := k + 1;
      }
      PairedValid(Grown(reqs, due, selected, k), rows');
    }

    lemma ValidPaired(scheduled: map<ReqId, nat>) returns (rows: map<ReqId, Row>)
      requires Valid() && batch.index.Keys == scheduled.Keys
      ensures Paired(Reqs(), rows) && Held(Reqs()) && Inverse(batch.reqIds, batch.index)
      ensures Seated(batch.reqIds, |batch.reqIds|, Reqs(), scheduled)
    {
      rows := batch.Rows();
      LiveKnown(Reqs(), Lists(), rows, batch.vocab, batch.maxLen);
      AllSeated(batch.reqIds, batch.index, Reqs(), scheduled);
    }

    /** The sampled tokens as they are returned: none for a partial prefill. */
    method Returned(selected: seq<int>, partial: seq<nat>) returns (valid: seq<seq<int>>)
      requires forall i | i in partial :: i < |selected|
      ensures |valid| == |selected|
      ensures forall i | 0 <= i < |valid| :: valid[i] == if i in partial then [] else [selected[i]]
    {
      valid := seq(|selected|, i requires 0 <= i < |selected| => [selected[i]]);
      var j := 0;
      while j < |partial|
        invariant 0 <= j <= |partial| && |valid| == |selected|
        invariant forall i | 0 <= i < |valid| :: valid[i] == if i in partial[..j] then [] else [selected[i]]
      {
        assert partial[j] in partial && partial[..j + 1] == partial[..j] + [partial[j]];
        valid := valid[partial[j] := []];
        j := j + 1;
      }
      assert partial[..j] == partial;
    }

    /** Book the token of every slot: the requests the step completes grow by it, wherever they sit;
        the others get nothing. */
    method BookTokens(scheduled: map<ReqId, nat>, selected: seq<int>, ghost tokens: map<ReqId, int>)
      returns (valid: seq<seq<int>>)
      requires Valid() && batch.index.Keys == scheduled.Keys <= tokens.Keys && Bounded(Reqs(), scheduled, batch.maxLen)
      requires |selected| == |batch.reqIds| && Chosen(batch.reqIds, selected, tokens)
      modifies Footprint() - {this}, batch`columns, batch.tokenIds
      ensures Valid() && Reqs() == Sampled(old(Reqs()), scheduled, tokens)
      ensures |valid| == |selected|
      ensures batch.index == old(batch.index) && requests == old(requests)
      ensures Reported(valid, batch.index, old(Reqs()), scheduled, tokens)
      ensures batch.columns.logitBias == old(batch.columns.logitBias)
    {
      hide Valid, Reqs, Paired, Held, Inverse, Seated, Bounded, Chosen, Usable, Writable, DistinctIds, Pendings,
        Partial,
           Grown, Sampled, Reported;
      ghost var reqs, reqIds, index := Reqs(), batch.reqIds, batch.index;
      ghost var rows := ValidPaired(scheduled);
      var due, partial := CollectDue(scheduled, reqs);
      PendingsUsable(reqIds, index, reqs, scheduled, selected);
      PendingsWritable(reqIds, index, reqs, scheduled, batch.maxLen);
      GrownIsSampled(reqIds, index, reqs, scheduled, selected, tokens);
      PartialBound(reqIds, reqs, scheduled);
      valid := Returned(selected, partial);
      ReturnedById(reqIds, index, reqs, scheduled, selected, tokens, valid);
      BatchApart();
      rows := ValidPaired(scheduled);
      GrowAll(due, selected, reqs, rows);
    }

    /** The booking, told by the records. */
    lemma SpellOut(reqs: map<ReqId, Req>, scheduled: map<ReqId, nat>, selected: seq<int>, tokens: map<ReqId, int>,
                   valid: seq<seq<int>>)
      requires scheduled.Keys <= tokens.Keys && Reqs() == Sampled(reqs, scheduled, tokens)
      requires batch.index.Keys == scheduled.Keys && Reported(valid, batch.index, reqs, scheduled, tokens)
      requires |valid| == |selected| && forall id | id in scheduled ::
                 batch.index[id] < |selected| && tokens[id] == selected[batch.index[id]]
      ensures requests.Keys == reqs.Keys && scheduled.Keys <= reqs.Keys
      ensures forall id | id in scheduled ::
                if reqs[id].computed + scheduled[id] >= |reqs[id].prompt| + |reqs[id].output|
                then requests[id].output.ids == reqs[id].output + [selected[batch.index[id]]]
                     && valid[batch.index[id]] == [selected[batch.index[id]]]
                else requests[id].output.ids == reqs[id].output && valid[batch.index[id]] == []
      ensures forall id | id in requests && id !in scheduled :: requests[id].output.ids == reqs[id].output
    {
      hide Reported, Sampled, Reqs;
      forall id | id in scheduled ensures id in reqs {
        ReportedIs(valid, batch.index, reqs, scheduled, tokens, id);
      }
      assert requests.Keys == Sampled(reqs, scheduled, tokens).Keys;
      forall id | id in requests
        ensures requests[id].output.ids
                == reqs[id].output + if id in scheduled && reqs[id].computed + scheduled[id]
                                                           >= |reqs[id].prompt| + |reqs[id].output|
                                     then [tokens[id]] else []
      {
        SampledAt(reqs, scheduled, tokens, id);
        RecordIs(id);
      }
      forall id | id in scheduled
        ensures valid[batch.index[id]] == if reqs[id].computed + scheduled[id] >= |reqs[id].prompt| + |reqs[id].output|
                                          then [tokens[id]] else []
      {
        ReportedIs(valid, batch.index, reqs, scheduled, tokens, id);
      }
    }

    lemma SeatTokens(selected: seq<int>, tokens: map<ReqId, int>)
      requires Valid() && Chosen(batch.reqIds, selected, tokens)
      ensures |selected| == |batch.reqIds|
      ensures forall id | id in batch.index ::
                batch.index[id] < |selected| && id in tokens && tokens[id] == selected[batch.index[id]]
    {
      hide SamplingScan, LoraScan, Agree, Injective;
    }

    /** The whole booking, request by request: whoever's step reaches its token count, prompt and output together, gets
        its slot's token, in its output and in the returned list; whoever's does not gets nothing in either. */
    method SampleTokens(scheduled: map<ReqId, nat>, selected: seq<int>, ghost tokens: map<ReqId, int>)
      returns (valid: seq<seq<int>>)
      requires Valid() && batch.index.Keys == scheduled.Keys <= tokens.Keys && Bounded(Reqs(), scheduled, batch.maxLen)
      requires |selected| == |batch.reqIds| && Chosen(batch.reqIds, selected, tokens)
      modifies Footprint() - {this}, batch`columns, batch.tokenIds
      ensures Valid() && Reqs() == Sampled(old(Reqs()), scheduled, tokens)
      ensures batch.index == old(batch.index) && requests == old(requests)
      ensures Reported(valid, batch.index, old(Reqs()), scheduled, tokens)
      ensures batch.columns.logitBias == old(batch.columns.logitBias)
      ensures forall id | id in scheduled ::
                && id in requests && batch.index[id] < |valid| == |selected| && tokens[id] == selected[batch.index[id]]
                && if old(requests[id].computed) + scheduled[id]
                      >= old(|requests[id].prompt|) + old(|requests[id].output.ids|)
                   then requests[id].output.ids == old(requests[id].output.ids) + [selected[batch.index[id]]]
                        && valid[batch.index[id]] == [selected[batch.index[id]]]
                   else requests[id].output.ids == old(requests[id].output.ids) && valid[batch.index[id]] == []
      ensures forall id | id in requests && id !in scheduled ::
                requests[id].output.ids == old(requests[id].output.ids)
    {
      hide Valid, Reqs, Sampled, Bounded, Chosen, Reported, Footprint;
      ghost var reqs := Reqs();
      forall id | id in requests
        ensures id in reqs
        ensures var q, r := reqs[id], requests[id];
                q.prompt == r.prompt && q.output == r.output.ids && q.computed == r.computed
      {
        RecordIs(id);
      }
      SeatTokens(selected, tokens);
      BatchApart();
      valid := BookTokens(scheduled, selected, tokens);
      SpellOut(reqs, scheduled, selected, tokens, valid);
    }

    // ---- whole runs ----

    lemma ValidSeats(tokens: map<ReqId, int>)
      requires Valid() && batch.index.Keys <= tokens.Keys
      ensures forall i | 0 <= i < |batch.reqIds| :: batch.reqIds[i].Some? && batch.reqIds[i].value in tokens
    {}

    /** The present moment. */
    ghost function Now(): Moment
      reads Footprint(), batch
      requires batch.Table()
    {
      Moment(Reqs(), batch.index, NothingLeft(), OwnBiases(Reqs(), batch.Biases()))
    }

    /** Take in the scheduler's word, from one moment to the next. */
    method Plan(so: SchedulerOutput)
      requires Valid() && Legal(Reqs(), batch.index.Keys, so, batch.maxReqs, batch.maxLen)
      modifies Footprint(), batch, batch.tokenIds
      ensures Valid() && Reqs() == NextRequests(old(Reqs()), so) && batch.index.Keys == so.scheduled.Keys
      ensures old(batch.Table()) && batch.Table() && Planned(old(Now()), so, Now())
      ensures fresh(Footprint() - old(Footprint()))
    {
      hide Valid, Reqs, Legal, NextRequests, OwnBiases, MovesBias, NothingLeft, Staying, InputBatch.Table,
        InputBatch.Biases;
      TablePart();
      var changed := UpdateStates(so);
      TablePart();
    }

    /** Book the sampled tokens, from one moment to the next. */
    method Book(scheduled: map<ReqId, nat>, ghost tokens: map<ReqId, int>, selected: seq<int>)
      requires Valid() && batch.index.Keys == scheduled.Keys <= tokens.Keys && Bounded(Reqs(), scheduled, batch.maxLen)
      requires |selected| == |batch.reqIds| && Chosen(batch.reqIds, selected, tokens)
      modifies Footprint() - {this}, batch`columns, batch.tokenIds
      ensures Valid() && Reqs() == Sampled(old(Reqs()), scheduled, tokens)
      ensures old(batch.Table()) && batch.Table()
      ensures Now() == old(Now()).(reqs := Sampled(old(Reqs()), scheduled, tokens))
    {
      hide Valid, Reqs, Sampled, Bounded, Chosen, OwnBiases, Clean, BiasMap, InputBatch.Table, Footprint, Reported;
      TablePart();
      ghost var reqs := Reqs();
      BatchApart();
      var valid := SampleTokens(scheduled, selected, tokens);
      TablePart();
      SampledOwn(reqs, scheduled, tokens, batch.Biases());
    }

    /** One step of the engine: take in the scheduler's word, then book the sampled tokens. */
    method Perform(step: Step)
      requires Valid() && LegalStep(Reqs(), batch.index.Keys, step, batch.maxReqs, batch.maxLen)
      modifies Footprint(), batch, batch.tokenIds
      ensures Valid() && Reqs() == AfterStep(old(Reqs()), step) && batch.index.Keys == step.so.scheduled.Keys
      ensures old(batch.Table()) && batch.Table() && Follows(old(Now()), step, Now())
      ensures fresh(Footprint() - old(Footprint()))
    {
      hide Valid, Reqs, Legal, NextRequests, Sampled, Bounded, Chosen, OwnBiases, MovesBias, NothingLeft, Staying,
        InputBatch.Table, InputBatch.Biases;
      Plan(step.so);
      ValidSeats(step.tokens);
      Book(step.so.scheduled, step.tokens, Select(batch.reqIds, step.tokens));
    }

    /** The whole step, request by request. */
    method Execute(step: Step)
      requires Valid() && LegalStep(Reqs(), batch.index.Keys, step, batch.maxReqs, batch.maxLen)
      modifies Footprint(), batch, batch.tokenIds
      ensures Valid() && Reqs() == AfterStep(old(Reqs()), step) && batch.index.Keys == step.so.scheduled.Keys
      ensures old(batch.Table()) && batch.Table() && Follows(old(Now()), step, Now())
      ensures fresh(Footprint() - old(Footprint()))
      ensures forall u | u in step.so.cached ::
                && u.id in old(requests) && u.id in requests && u.id in step.so.scheduled
                && requests[u.id].output.ids
                   == old(requests[u.id].output.ids)
                      + (if u.computed + step.so.scheduled[u.id]
                            >= old(|requests[u.id].prompt|) + old(|requests[u.id].output.ids|)
                         then [step.tokens[u.id]] else [])
                && requests[u.id].computed == u.computed
                && (!u.resumed ==> requests[u.id].blocks == old(requests[u.id].blocks)
                                                            + if u.blocks.Some? then u.blocks.value else [])
                && (u.resumed ==> u.blocks.Some? && requests[u.id].blocks == u.blocks.value)
      ensures forall n | n in step.so.news ::
                && n.id in requests && n.id in step.so.scheduled && requests[n.id].prompt == n.prompt
                && requests[n.id].output.ids == (if n.computed + step.so.scheduled[n.id] >= |n.prompt|
                                                 then [step.tokens[n.id]] else [])
                && requests[n.id].computed == n.computed && requests[n.id].blocks == n.blocks
      ensures forall id | id in requests && id !in step.so.scheduled ::
                id in old(requests) && requests[id].output.ids == old(requests[id].output.ids)
      ensures batch.columns.Sized(batch.maxReqs)
      ensures forall id | id in batch.index ::
                && id in requests && batch.index[id] < batch.maxReqs
                && batch.columns.computed[batch.index[id]] == requests[id].computed
                && batch.columns.blocks[batch.index[id]] == requests[id].blocks
    {
      hide Valid, Reqs, LegalStep, AfterStep, Footprint, Follows, InputBatch.Table, Now;
      ghost var reqs, live := Reqs(), batch.index.Keys;
      forall id | id in requests
        ensures id in reqs
        ensures var q, r := reqs[id], requests[id];
                q.prompt == r.prompt && q.output == r.output.ids && q.computed == r.computed && q.blocks == r.blocks
      {
        RecordIs(id);
      }
      forall id | id in reqs ensures id in requests {}
      StepTokens(reqs, live, step, batch.maxReqs, batch.maxLen);
      Perform(step);
      ProgressIsOwn();
      forall u | u in step.so.cached
        ensures u.id in reqs && u.id in requests && u.id in step.so.scheduled
        ensures requests[u.id].output.ids
                == reqs[u.id].output + if u.computed + step.so.scheduled[u.id]
                                          >= |reqs[u.id].prompt| + |reqs[u.id].output| then [step.tokens[u.id]] else []
        ensures requests[u.id].computed == u.computed
        ensures !u.resumed ==>
                  requests[u.id].blocks == reqs[u.id].blocks + if u.blocks.Some? then u.blocks.value else []
        ensures u.resumed ==> u.blocks.Some? && requests[u.id].blocks == u.blocks.value
      {
        StepOfCached(reqs, live, step, batch.maxReqs, batch.maxLen, u);
        RecordIs(u.id);
      }
      forall n | n in step.so.news
        ensures n.id in requests && n.id in step.so.scheduled && requests[n.id].prompt == n.prompt
        ensures requests[n.id].output.ids == if n.computed + step.so.scheduled[n.id] >= |n.prompt|
                                             then [step.tokens[n.id]] else []
        ensures requests[n.id].computed == n.computed && requests[n.id].blocks == n.blocks
      {
        StepOfNew(reqs, live, step, batch.maxReqs, batch.maxLen, n);
        RecordIs(n.id);
      }
      forall id | id in requests && id !in step.so.scheduled
        ensures id in reqs && requests[id].output.ids == reqs[id].output
      {
        RecordIs(id);
        StepOfOther(reqs, live, step, batch.maxReqs, batch.maxLen, id);
      }
    }

    /** The state after k steps of a run from these requests, of which these were live. */
    ghost predicate Going(steps: seq<Step>, k: nat, trace: seq<Moment>, reqs: map<ReqId, Req>, live: set<ReqId>,
                          first: Moment)
      reads Footprint(), batch, batch.tokenIds
    {
      && k <= |steps| && Valid() && batch.Table()
      && LegalRun(reqs, live, steps, batch.maxReqs, batch.maxLen)
      && LegalRun(Reqs(), batch.index.Keys, steps[k..], batch.maxReqs, batch.maxLen)
      && AfterRun(Reqs(), batch.index.Keys, steps[k..], batch.maxReqs, batch.maxLen)
         == AfterRun(reqs, live, steps, batch.maxReqs, batch.maxLen)
      && batch.index.Keys == (if k == 0 then live else steps[k - 1].so.scheduled.Keys)
      && |trace| == k + 1 && trace[0] == first && trace[k] == Now() && Traces(trace, steps[..k])
    }

    lemma GoStart(steps: seq<Step>)
      requires Valid() && LegalRun(Reqs(), batch.index.Keys, steps, batch.maxReqs, batch.maxLen)
      ensures batch.Table() && Going(steps, 0, [Now()], Reqs(), batch.index.Keys, Now())
    {
      hide LegalRun, AfterRun, LegalStep;
      TablePart();
      TraceStart(steps, [Now()]);
      assert steps[0..] == steps;
    }

    method GoOne(steps: seq<Step>, k: nat, ghost trace: seq<Moment>, ghost reqs: map<ReqId, Req>,
                 ghost live: set<ReqId>, ghost first: Moment)
      returns (ghost trace': seq<Moment>)
      requires k < |steps| && Going(steps, k, trace, reqs, live, first)
      modifies Footprint(), batch, batch.tokenIds
      ensures Going(steps, k + 1, trace', reqs, live, first)
      ensures fresh(Footprint() - old(Footprint()))
    {
      hide Valid, Reqs, LegalStep, LegalRun, AfterRun, AfterStep, Footprint, Follows, Traces, InputBatch.Table, Now;
      RunStep(Reqs(), batch.index.Keys, steps, k, batch.maxReqs, batch.maxLen);
      Perform(steps[k]);
      TraceNext(steps, k, trace, Now());
      trace' := trace + [Now()];
    }

    lemma GoEnd(steps: seq<Step>, trace: seq<Moment>, reqs: map<ReqId, Req>, live: set<ReqId>, first: Moment)
      requires Going(steps, |steps|, trace, reqs, live, first)
      ensures Valid() && LegalRun(reqs, live, steps, batch.maxReqs, batch.maxLen)
      ensures Reqs() == AfterRun(reqs, live, steps, batch.maxReqs, batch.maxLen)
      ensures batch.index.Keys == if steps == [] then live else steps[|steps| - 1].so.scheduled.Keys
      ensures batch.Table() && Traces(trace, steps) && trace[0] == first && trace[|steps|] == Now()
    {
      hide Valid, Follows;
      RunEnd(Reqs(), batch.index.Keys, steps, batch.maxReqs, batch.maxLen);
      assert steps[..|steps|] == steps;
    }

    /** Over any run the batch holds exactly the requests last scheduled, each row its own request's, and the requests
        are what the scheduler's words and the sampled tokens make them.  The moments between the steps tell what
        becomes of slots and biases. */
    method Run(steps: seq<Step>) returns (ghost trace: seq<Moment>)
      requires Valid() && LegalRun(Reqs(), batch.index.Keys, steps, batch.maxReqs, batch.maxLen)
      modifies Footprint(), batch, batch.tokenIds
      ensures Valid() && Reqs() == AfterRun(old(Reqs()), old(batch.index.Keys), steps, batch.maxReqs, batch.maxLen)
      ensures batch.index.Keys == if steps == [] then old(batch.index.Keys) else steps[|steps| - 1].so.scheduled.Keys
      ensures old(batch.Table()) && batch.Table() && Traces(trace, steps)
      ensures trace[0] == old(Now()) && trace[|steps|] == Now()
      ensures fresh(Footprint() - old(Footprint()))
    {
      GoStart(steps);
      hide Valid, Reqs, LegalRun, AfterRun, Footprint, Traces, InputBatch.Table, Now, Going;
      ghost var reqs, live, first := Reqs(), batch.index.Keys, Now();
      trace := [first];
      var k := 0;
      while k < |steps|
        invariant 0 <= k <= |steps| && Going(steps, k, trace, reqs, live, first)
        invariant fresh(Footprint() - old(Footprint()))
      {
        label Before:
        trace := GoOne(steps, k, trace, reqs, live, first);
        forall o | o in Footprint() && o !in old(Footprint()) && o !in old@Before(Footprint()) ensures fresh(o) {
          assert fresh@Before(o);
        }
        k := k + 1;
      }
      GoEnd(steps, trace, reqs, live, first);
    }

    // ---- what a valid state says of a live request ----

    lemma BiasAt(id: ReqId)
      requires Valid() && id in batch.index
      ensures batch.Table() && batch.columns.Sized(batch.maxReqs) && batch.index[id] < batch.maxReqs
      ensures id in requests && id in Reqs() && Reqs()[id].sampling == requests[id].sampling
      ensures id in batch.Biases() && batch.Biases()[id] == batch.columns.logitBias[batch.index[id]]
    {
      hide Inverse, SamplingScan, LoraScan, Agree, Injective;
      SlotIsOwn(id);
    }

    lemma ValidTable()
      requires Valid()
      ensures batch.Table() && batch.columns.Sized(batch.maxReqs) && batch.Biases().Keys == batch.index.Keys
    {}

    /** What it is for biases to be the requests' own, and for none to be left behind. */
    lemma BiasesSay()
      requires Valid()
      ensures batch.Table() && batch.columns.Sized(batch.maxReqs)
      ensures OwnBiases(Reqs(), batch.Biases()) <==>
              forall id | id in batch.index ::
                && id in requests && batch.index[id] < batch.maxReqs
                && batch.columns.logitBias[batch.index[id]] == requests[id].sampling.logitBias
      ensures NothingLeft() <==>
              forall i | 0 <= i < batch.maxReqs && (i >= |batch.reqIds| || batch.reqIds[i] == None) ::
                batch.columns.logitBias[i] == None
    {
      hide Valid, Reqs, InputBatch.Biases, InputBatch.Table;
      ValidTable();
      forall id | id in batch.index
        ensures id in requests && id in Reqs() && Reqs()[id].sampling == requests[id].sampling
        ensures batch.index[id] < batch.maxReqs && id in batch.Biases()
        ensures batch.Biases()[id] == batch.columns.logitBias[batch.index[id]]
      {
        BiasAt(id);
      }
    }

    lemma OwnTokens(id: ReqId)
      requires Valid() && id in batch.index
      ensures id in requests && batch.Table() && batch.Full(batch.index[id])
      ensures batch.TokensAt(batch.index[id]) == requests[id].prompt + requests[id].output.ids
      ensures batch.outputs[batch.index[id]] == Some(requests[id].output)
      ensures batch.columns.numPrompt[batch.index[id]] == |requests[id].prompt|
      ensures batch.columns.numTokens[batch.index[id]] <= batch.maxLen
    {
      hide Inverse, SamplingScan, LoraScan, Agree, Injective;
      SlotIsOwn(id);
    }

    /** A live request's slot: its tokens, the prompt's before the output's, and the list its outputs go to. */
    lemma SlotSpells(id: ReqId)
      requires Valid() && id in batch.index
      ensures id in requests && batch.columns.Sized(batch.maxReqs) && batch.index[id] < batch.maxReqs
      ensures batch.index[id] < |batch.outputs| && batch.outputs[batch.index[id]] == Some(requests[id].output)
      ensures batch.tokenIds.Length0 == batch.maxReqs && batch.tokenIds.Length1 == batch.maxLen
      ensures var i, q := batch.index[id], requests[id];
              && batch.columns.numPrompt[i] == |q.prompt|
              && batch.columns.numTokens[i] == |q.prompt| + |q.output.ids| <= batch.maxLen
              && (forall j | 0 <= j < |q.prompt| :: batch.tokenIds[i, j] == q.prompt[j])
              && forall j | 0 <= j < |q.output.ids| :: batch.tokenIds[i, |q.prompt| + j] == q.output.ids[j]
    {
      hide Valid, SlotRow, RowOf, Inverse;
      OwnTokens(id);
      var i, q := batch.index[id], requests[id];
      var tokens := batch.TokensAt(i);
      forall j | 0 <= j < |q.prompt| ensures batch.tokenIds[i, j] == q.prompt[j] {
        assert tokens[j] == q.prompt[j];
      }
      forall j | 0 <= j < |q.output.ids| ensures batch.tokenIds[i, |q.prompt| + j] == q.output.ids[j] {
        assert tokens[|q.prompt| + j] == q.output.ids[j];
      }
    }

    /** A live request's slot, where it may have no entry: a generator, a least number of tokens, bad words. */
    lemma SlotOptions(id: ReqId)
      requires Valid() && id in batch.index
      ensures id in requests
      ensures var i, o, q, p := batch.index[id], batch.optionals, requests[id], requests[id].sampling;
              && (i in o.generators <==> q.generator.Some?)
              && (i in o.generators ==> o.generators[i] == q.generator.value)
              && (i in o.minTokens <==> p.minTokens > 0)
              && (i in o.minTokens ==> o.minTokens[i] == (p.minTokens, p.stopIds))
              && (i in o.badWords <==> p.badWords != [])
              && (i in o.badWords ==> o.badWords[i] == p.badWords)
    {
      hide Inverse, SamplingScan, LoraScan, Agree, Injective;
      SlotIsOwn(id);
    }

    /** The index sets and LoRA maps list exactly the live requests with such parameters, whatever steps led here. */
    lemma IndexesAreOwn(id: ReqId)
      requires Valid() && id in batch.index && id in requests
      ensures var p := requests[id].sampling;
              && (id in batch.sets.greedy <==> p.temperature < 0.00001)
              && (id in batch.sets.random <==> p.temperature >= 0.00001)
              && (id in batch.sets.topP <==> p.topP < 1.0) && (id in batch.sets.topK <==> 0 < p.topK < batch.vocab)
              && (id in batch.sets.minP <==> p.minP > 0.00001)
              && (id in batch.sets.frequency <==> p.frequency != 0.0)
              && (id in batch.sets.presence <==> p.presence != 0.0)
              && (id in batch.sets.repetition <==> p.repetition != 1.0)
      ensures forall l ::
                id in Members(batch.loras.toReqs, l) <==> requests[id].lora.Some? && l == requests[id].lora.value
    {
      hide SlotRow, Inverse, SamplingScan, LoraScan, Agree, Injective;
      SlotIsOwn(id);
      assert Reqs()[id] == requests[id].Snap();
      assert Fits(Reqs()[id], batch.maxLen);
      ScanOf(batch.index, batch.columns, batch.sets, batch.loras, batch.maxReqs, batch.vocab, id);
      ScalarsOf(batch.outputs[batch.index[id]].value, batch.TokensAt(batch.index[id]), batch.columns,
                batch.optionals, batch.index[id]);
    }

    /** No request outside the batch is in an index set, and no loaded LoRA id is without members. */
    lemma IndexesAreLive()
      requires Valid()
      ensures var s := batch.sets;
              && s.greedy + s.random == batch.index.Keys && s.greedy !! s.random
              && s.topP <= batch.index.Keys && s.topK <= batch.index.Keys && s.minP <= batch.index.Keys
              && s.frequency <= batch.index.Keys && s.presence <= batch.index.Keys && s.repetition <= batch.index.Keys
      ensures batch.loras.requests == batch.loras.toReqs.Keys
      ensures forall l | l in batch.loras.toReqs ::
                batch.loras.toReqs[l] != {} && batch.loras.toReqs[l] <= batch.index.Keys
    {
      hide SamplingScan, LoraScan, Inverse;
      SetsLive(batch.index, batch.columns, batch.sets, batch.maxReqs, batch.vocab);
      LorasLive(batch.index, batch.columns, batch.loras, batch.maxReqs);
    }
  }
}
