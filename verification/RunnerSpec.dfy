/** What the runner's steps mean: plain maps from a request id to what is known of the request. */
module RunnerSpec {
  import opened Basics
  import opened Finite
  import opened InputBatches

  /** A request the scheduler sends for the first time. */
  datatype NewRequest = NewRequest(id: ReqId, prompt: seq<int>, sampling: Sampling, seed: Option<nat>,
                                   lora: Option<nat>,
                                   computed: nat, blocks: seq<nat>)
  {
    /** Only seeded random sampling has a generator of its own. */
    function Generator(): Option<nat> {
      if sampling.Greedy() then None else seed
    }
  }

  /** What the scheduler says of a request it has sent before. */
  datatype CachedUpdate = CachedUpdate(id: ReqId, computed: nat, blocks: Option<seq<nat>>, resumed: bool)

  datatype SchedulerOutput = SchedulerOutput(finished: seq<ReqId>, news: seq<NewRequest>, cached: seq<CachedUpdate>,
                                             scheduled: map<ReqId, nat>)
  {
    /** The requests this step works on, new ones first. */
    function Ids(): (ids: seq<ReqId>)
      ensures |ids| == |news| + |cached|
      ensures forall i | 0 <= i < |news| :: ids[i] == news[i].id
      ensures forall i | 0 <= i < |cached| :: ids[|news| + i] == cached[i].id
    {
      seq(|news|, i requires 0 <= i < |news| => news[i].id)
      + seq(|cached|, i requires 0 <= i < |cached| => cached[i].id)
    }
  }

  predicate NoDup<T(==)>(s: seq<T>) {
    forall i, j | 0 <= i < j < |s| :: s[i] != s[j]
  }

  function IdSet(ids: seq<ReqId>): set<ReqId> {
    set id | id in ids
  }

  // ---- requests from step to step ----

  function Fresh(n: NewRequest): Req {
    Req(n.prompt, [], n.sampling, n.Generator(), n.lora, n.computed, n.blocks)
  }

  /** The blocks of a request after an update: a resumed request starts over with the new ones. */
  function Updated(q: Req, u: CachedUpdate): Req {
    q.(computed := u.computed,
       blocks := if u.resumed && u.blocks.Some? then u.blocks.value else Extended(q.blocks, u.blocks))
  }

  lemma AdvanceIsUpdate(q: Req, u: CachedUpdate)
    requires u.resumed ==> u.blocks.Some?
    ensures Updated(q, u)
            == q.(computed := u.computed, blocks := if u.resumed then u.blocks.value else Extended(q.blocks, u.blocks))
  {}

  function WithNew(reqs: map<ReqId, Req>, news: seq<NewRequest>, k: nat): (r: map<ReqId, Req>)
    requires k <= |news|
    ensures reqs.Keys <= r.Keys && forall i | 0 <= i < k :: news[i].id in r
  {
    if k == 0 then reqs else WithNew(reqs, news, k - 1)[news[k - 1].id := Fresh(news[k - 1])]
  }

  function WithCached(reqs: map<ReqId, Req>, cached: seq<CachedUpdate>, k: nat): (r: map<ReqId, Req>)
    requires k <= |cached|
    ensures r.Keys == reqs.Keys
  {
    if k == 0 then reqs
    else
      var before, u := WithCached(reqs, cached, k - 1), cached[k - 1];
      if u.id in before then before[u.id := Updated(before[u.id], u)] else before
  }

  /** The scheduler keeps to its side of the protocol. */
  ghost predicate Legal(reqs: map<ReqId, Req>, live: set<ReqId>, so: SchedulerOutput, maxReqs: nat, maxLen: nat) {
    && NoDup(so.Ids()) && so.scheduled.Keys == IdSet(so.Ids()) && |so.scheduled| <= maxReqs
    && (forall n | n in so.news :: n.id !in reqs || n.id in so.finished)
    && (forall n | n in so.news :: |n.prompt| <= maxLen && n.lora != Some(0))
    && (forall u | u in so.cached :: u.id in reqs && u.id !in so.finished)
    && (forall u | u in so.cached && u.resumed :: u.blocks.Some? && u.id !in live)
  }

  /** The requests after the scheduler's word on a step. */
  function NextRequests(reqs: map<ReqId, Req>, so: SchedulerOutput): map<ReqId, Req> {
    WithCached(WithNew(reqs - IdSet(so.finished), so.news, |so.news|), so.cached, |so.cached|)
  }

  /** The step reaches the end of what is known of this request, so its sampled token counts. */
  predicate Due(q: Req, scheduled: nat) {
    q.computed + scheduled >= q.NumTokens()
  }

  /** Every request a step completes grows by its token; a partial prefill gets nothing. */
  function Sampled(reqs: map<ReqId, Req>, scheduled: map<ReqId, nat>, tokens: map<ReqId, int>): (r: map<ReqId, Req>)
    requires scheduled.Keys <= tokens.Keys
    ensures r.Keys == reqs.Keys
  {
    map id | id in reqs ::
      if id in scheduled && Due(reqs[id], scheduled[id]) then reqs[id].(output := reqs[id].output + [tokens[id]])
        else reqs[id]
  }

  /** No request is scheduled past its known tokens, and there is room for the next one. */
  ghost predicate Bounded(reqs: map<ReqId, Req>, scheduled: map<ReqId, nat>, maxLen: nat) {
    forall id | id in reqs && id in scheduled ::
      && reqs[id].computed + scheduled[id] <= reqs[id].NumTokens()
      && (Due(reqs[id], scheduled[id]) ==> reqs[id].NumTokens() < maxLen)
  }

  // ---- the batch holds the requests' own rows ----

  /** Equal rows, but for the token count without speculation, which sampling leaves behind. */
  predicate Same(a: Row, b: Row) {
    a.(noSpec := b.noSpec) == b
  }

  ghost predicate Agree(reqs: map<ReqId, Req>, lists: map<ReqId, TokenList>, rows: map<ReqId, Row>, vocab: int) {
    forall id | id in rows :: id in reqs && id in lists && Same(rows[id], RowOf(reqs[id], lists[id], vocab))
  }

  predicate Fits(q: Req, maxLen: nat) {
    q.NumTokens() <= maxLen && q.lora != Some(0)
  }

  ghost predicate AllFit(reqs: map<ReqId, Req>, maxLen: nat) {
    forall id | id in reqs :: Fits(reqs[id], maxLen)
  }

  /** No two requests share an output list. */
  ghost predicate Injective(lists: map<ReqId, TokenList>) {
    forall a, b | a in lists && b in lists && lists[a] == lists[b] :: a == b
  }

  /** Every row is its own request's and shares its output list, and every request fits a row. */
  ghost predicate Linked(reqs: map<ReqId, Req>, lists: map<ReqId, TokenList>, rows: map<ReqId, Row>, vocab: int,
                         maxLen: nat) {
    Agree(reqs, lists, rows, vocab) && AllFit(reqs, maxLen) && Injective(lists)
  }

  /** A request without a row can be filed, with a list of its own. */
  lemma NewLinked(reqs: map<ReqId, Req>, lists: map<ReqId, TokenList>, rows: map<ReqId, Row>, vocab: int, maxLen: nat,
                  id: ReqId, q: Req, list: TokenList)
    requires Linked(reqs, lists, rows, vocab, maxLen) && id !in rows && Fits(q, maxLen)
    requires forall k | k in lists :: lists[k] != list
    ensures Linked(reqs[id := q], lists[id := list], rows, vocab, maxLen)
  {}

  /** An update that does not restart the blocks does the same to a request and to its row. */
  lemma UpdateAgrees(q: Req, list: TokenList, row: Row, vocab: int, u: CachedUpdate)
    requires Same(row, RowOf(q, list, vocab)) && !u.resumed
    ensures Same(row.(computed := u.computed, blocks := Extended(row.blocks, u.blocks)),
                 RowOf(Updated(q, u), list, vocab))
  {}

  /** What an update writes into the batch, if it holds the request. */
  function UpdatedRows(rows: map<ReqId, Row>, u: CachedUpdate): (r: map<ReqId, Row>)
    ensures r.Keys == rows.Keys
  {
    if u.id in rows
    then rows[u.id := rows[u.id].(computed := u.computed, blocks := Extended(rows[u.id].blocks, u.blocks))] else rows
  }

  lemma UpdatedLinked(reqs: map<ReqId, Req>, lists: map<ReqId, TokenList>, rows: map<ReqId, Row>, vocab: int,
                      maxLen: nat,
                      u: CachedUpdate)
    requires Linked(reqs, lists, rows, vocab, maxLen) && u.id in reqs && (u.resumed ==> u.id !in rows)
    ensures Linked(reqs[u.id := Updated(reqs[u.id], u)], lists, UpdatedRows(rows, u), vocab, maxLen)
  {
    if u.id in rows {
      UpdateAgrees(reqs[u.id], lists[u.id], rows[u.id], vocab, u);
    }
  }

  /** A request may enter the batch with its own row. */
  lemma AddedLinked(reqs: map<ReqId, Req>, lists: map<ReqId, TokenList>, rows: map<ReqId, Row>, vocab: int,
                    maxLen: nat, id: ReqId)
    requires Linked(reqs, lists, rows, vocab, maxLen) && id in reqs && id in lists
    ensures Linked(reqs, lists, rows[id := RowOf(reqs[id], lists[id], vocab)], vocab, maxLen)
  {}

  /** Rows can go, and requests can be forgotten together with their rows. */
  lemma LessLinked(reqs: map<ReqId, Req>, lists: map<ReqId, TokenList>, rows: map<ReqId, Row>, vocab: int, maxLen: nat,
                   forgotten: set<ReqId>, dropped: set<ReqId>)
    requires Linked(reqs, lists, rows, vocab, maxLen) && forgotten <= dropped
    ensures Linked(reqs - forgotten, lists - forgotten, rows - dropped, vocab, maxLen)
  {}

  /** A token written behind a row is a token appended to the request. */
  lemma TokenAgrees(q: Req, list: TokenList, row: Row, vocab: int, token: int)
    requires Same(row, RowOf(q, list, vocab))
    ensures |row.tokens| == q.NumTokens()
    ensures Same(row.(tokens := row.tokens + [token]), RowOf(q.(output := q.output + [token]), list, vocab))
  {
    assert q.prompt + (q.output + [token]) == (q.prompt + q.output) + [token];
  }

  // ---- which requests enter the batch ----

  /** The first m ids that are not live, in some order. */
  ghost predicate Picks(ids: seq<ReqId>, m: nat, toAdd: seq<ReqId>, live: set<ReqId>)
    requires m <= |ids|
  {
    NoDup(toAdd) && forall id :: id in toAdd <==> id in ids[..m] && id !in live
  }

  /** The updates are of known requests, each once, and none restarts a request that is live. */
  ghost predicate Ready(so: SchedulerOutput, reqs: map<ReqId, Req>, live: set<ReqId>) {
    && NoDup(so.Ids()) && (forall n | n in so.news :: n.id !in live)
    && (forall u | u in so.cached :: u.id in reqs && (u.resumed ==> u.blocks.Some? && u.id !in live))
  }

  lemma PickNew(so: SchedulerOutput, live: set<ReqId>)
    requires NoDup(so.Ids()) && forall n | n in so.news :: n.id !in live
    ensures Picks(so.Ids(), |so.news|, so.Ids()[..|so.news|], live)
  {
    forall id | id in so.Ids()[..|so.news|] ensures id !in live {
      var i :| 0 <= i < |so.news| && so.Ids()[i] == id;
      assert so.news[i] in so.news;
    }
  }

  lemma PickNext(ids: seq<ReqId>, m: nat, toAdd: seq<ReqId>, live: set<ReqId>)
    requires m < |ids| && NoDup(ids) && Picks(ids, m, toAdd, live)
    ensures Picks(ids, m + 1, if ids[m] in live then toAdd else toAdd + [ids[m]], live)
  {
    assert ids[..m + 1] == ids[..m] + [ids[m]];
    assert ids[m] !in ids[..m];
  }

  /** One more update: an id the batch does not hold joins those to add. */
  lemma PickUpdate(so: SchedulerOutput, reqs: map<ReqId, Req>, live: set<ReqId>, toAdd: seq<ReqId>, k: nat)
    requires k < |so.cached| && Ready(so, reqs, live) && Picks(so.Ids(), |so.news| + k, toAdd, live)
    ensures var u := so.cached[k];
            && u.id in reqs && (u.resumed ==> u.blocks.Some? && u.id !in live)
            && Picks(so.Ids(), |so.news| + k + 1, if u.id in live then toAdd else toAdd + [u.id], live)
            && WithCached(reqs, so.cached, k + 1)
               == WithCached(reqs, so.cached, k)[u.id := Updated(WithCached(reqs, so.cached, k)[u.id], u)]
  {
    assert so.Ids()[|so.news| + k] == so.cached[k].id;
    PickNext(so.Ids(), |so.news| + k, toAdd, live);
  }

  // ---- the slots that have become free ----

  /** The listed slots are exactly the holes, each listed once, in any order. */
  predicate Frees(reqIds: seq<Option<ReqId>>, removed: seq<nat>) {
    && NoDup(removed)
    && (forall i | 0 <= i < |reqIds| :: reqIds[i] == None <==> i in removed)
    && (forall i | i in removed :: i < |reqIds|)
  }

  lemma FreesAfter(reqIds: seq<Option<ReqId>>, removed: seq<nat>, slot: nat)
    requires Frees(reqIds, removed) && slot < |reqIds| && reqIds[slot].Some?
    ensures Frees(reqIds[slot := None], removed + [slot])
  {}

  /** A larger slot goes in front. */
  lemma InFront(x: nat, s: seq<nat>)
    requires Descending(s) && forall i | i in s :: x > i
    ensures Descending([x] + s) && forall i: int :: i in [x] + s <==> i == x || i in s
  {
    assert forall k | 0 <= k < |s| :: s[k] in s;
  }

  lemma FirstLargest(s: seq<nat>)
    requires Descending(s) && s != []
    ensures s == [s[0]] + s[1..] && Descending(s[1..])
    ensures forall i | i in s :: i <= s[0]
    ensures forall i: int :: i in s[1..] <==> i in s && i != s[0]
  {
    var x, rest := s[0], s[1..];
    forall i | i in s ensures i <= x {
      var j :| 0 <= j < |s| && s[j] == i;
    }
    forall i | i in rest ensures i in s && i != x {
      var j :| 0 <= j < |rest| && rest[j] == i;
      assert s[j + 1] == i;
    }
    assert s == [x] + rest;
  }

  /** Put a slot in its place among larger and smaller ones. */
  function Insert(s: seq<nat>, x: nat): (r: seq<nat>)
    requires Descending(s) && x !in s
    ensures Descending(r) && forall i: int :: i in r <==> i in s || i == x
  {
    if s == [] then [x]
    else
      FirstLargest(s);
      if x > s[0] then InFront(x, s); [x] + s
      else InFront(s[0], Insert(s[1..], x)); [s[0]] + Insert(s[1..], x)
  }

  /** The free slots, largest first. */
  function SortDescending(s: seq<nat>): (r: seq<nat>)
    requires NoDup(s)
    ensures Descending(r) && forall i: int :: i in r <==> i in s
  {
    if s == [] then []
    else
      var front := s[..|s| - 1];
      assert s == front + [s[|s| - 1]];
      Insert(SortDescending(front), s[|s| - 1])
  }

  lemma FreesSorted(reqIds: seq<Option<ReqId>>, removed: seq<nat>)
    requires Frees(reqIds, removed)
    ensures ListsHoles(reqIds, SortDescending(removed))
  {}

  /** Filling the smallest hole leaves the others; without holes the table grows at its end. */
  lemma FillHole(reqIds: seq<Option<ReqId>>, holes: seq<nat>, id: ReqId)
    requires ListsHoles(reqIds, holes)
    ensures var slot := if holes == [] then |reqIds| else holes[|holes| - 1];
            && slot <= |reqIds| && (holes != [] ==> slot < |reqIds| && reqIds[slot] == None)
            && ListsHoles(PutAt(reqIds, slot, id), if holes == [] then [] else holes[..|holes| - 1])
  {
    if holes != [] {
      var slot, rest := holes[|holes| - 1], holes[..|holes| - 1];
      assert slot in holes;
      PopHole(holes);
      forall i | 0 <= i < |reqIds| ensures PutAt(reqIds, slot, id)[i] == None <==> i in rest {
        assert reqIds[i] == None <==> i in holes;
      }
      forall i | i in rest ensures i < |reqIds| {
        assert i in holes;
      }
      assert ListsHoles(PutAt(reqIds, slot, id), rest);
    } else {
      forall i | 0 <= i < |reqIds| ensures reqIds[i].Some? {
        assert reqIds[i] == None <==> i in holes;
      }
      assert ListsHoles(reqIds + [Some(id)], []);
    }
  }

  lemma NoHolesFull(reqIds: seq<Option<ReqId>>, index: map<ReqId, nat>)
    requires Inverse(reqIds, index) && ListsHoles(reqIds, [])
    ensures |index| == |reqIds|
  {
    IndexSize(reqIds, index);
    HolesAndFull(reqIds, []);
  }

  lemma NoneEmpty(reqIds: seq<Option<ReqId>>)
    requires ListsHoles(reqIds, [])
    ensures forall i | 0 <= i < |reqIds| :: reqIds[i].Some?
  {
    forall i | 0 <= i < |reqIds| ensures reqIds[i].Some? {
      assert reqIds[i] == None <==> i in [];
    }
  }

  lemma NextToAdd(toAdd: seq<ReqId>, k: nat)
    requires NoDup(toAdd) && k < |toAdd|
    ensures toAdd[k] in IdSet(toAdd) && toAdd[k] !in IdSet(toAdd[..k]) && IdSet(toAdd[..k]) <= IdSet(toAdd)
    ensures IdSet(toAdd[..k + 1]) == IdSet(toAdd[..k]) + {toAdd[k]}
  {
    assert toAdd[..k + 1] == toAdd[..k] + [toAdd[k]];
  }

  /** There is room for one more request while some scheduled one is missing. */
  lemma RoomForOne(live: set<ReqId>, scheduled: set<ReqId>, id: ReqId)
    requires id !in live && id in scheduled && live <= scheduled
    ensures |live| < |scheduled|
  {
    SubsetSize(live + {id}, scheduled);
  }

  // ---- who sits where, with which bias ----

  /** Nothing is known of the slots; or no empty one holds a bias, and these are the requests' slots and biases. */
  datatype Slots = Untracked | Tidy(index: map<ReqId, nat>, biases: map<ReqId, Bias>) {
    function Without(ids: set<ReqId>): Slots {
      if Tidy? then Tidy(index - ids, biases - ids) else this
    }

    function With(id: ReqId, slot: nat, bias: Bias): Slots {
      if Tidy? then Tidy(index[id := slot], biases[id := bias]) else this
    }
  }

  ghost predicate SlotsAre(t: Slots, reqIds: seq<Option<ReqId>>, index: map<ReqId, nat>, bias: seq<Bias>) {
    t.Tidy? ==>
      index == t.index && Indexed(index, |bias|) && Clean(reqIds, bias) && BiasMap(index, bias) == t.biases
  }

  lemma WithoutTwice(t: Slots, a: set<ReqId>, b: set<ReqId>)
    ensures t.Without(a).Without(b) == t.Without(a + b)
    ensures t.Without({}) == t
  {
    if t.Tidy? {
      assert t.index - a - b == t.index - (a + b) && t.biases - a - b == t.biases - (a + b);
      assert t.index - {} == t.index && t.biases - {} == t.biases;
    }
  }

  /** From t on, these requests have entered with their own biases, below all of the remaining holes; the others are
      where they were. */
  ghost predicate Entered(t: Slots, t': Slots, reqs: map<ReqId, Req>, added: set<ReqId>, holes: seq<nat>) {
    && (t.Tidy? <==> t'.Tidy?)
    && (t.Tidy? ==>
          && t'.index.Keys == t.index.Keys + added && t'.biases.Keys == t.biases.Keys + added && added <= reqs.Keys
          && t.index.Keys == t.biases.Keys && t.index.Keys !! added
          && (forall id | id in t.index :: t'.index[id] == t.index[id] && t'.biases[id] == t.biases[id])
          && (forall id | id in added :: t'.biases[id] == reqs[id].sampling.logitBias)
          && (forall id, h | id in added && h in holes :: t'.index[id] < h))
  }

  lemma EnterNone(t: Slots, reqs: map<ReqId, Req>, holes: seq<nat>)
    requires t.Tidy? ==> t.index.Keys == t.biases.Keys
    ensures Entered(t, t, reqs, {}, holes)
  {}

  lemma EnterNext(t: Slots, t': Slots, reqs: map<ReqId, Req>, added: set<ReqId>, holes: seq<nat>, rest: seq<nat>,
                  id: ReqId, slot: nat)
    requires Entered(t, t', reqs, added, holes) && id in reqs && id !in added && (t'.Tidy? ==> id !in t'.index)
    requires forall h | h in rest :: h in holes && slot < h
    ensures Entered(t, t'.With(id, slot, reqs[id].sampling.logitBias), reqs, added + {id}, rest)
  {}

  lemma HolesAbove(reqIds: seq<Option<ReqId>>, holes: seq<nat>)
    requires ListsHoles(reqIds, holes) && holes != []
    ensures forall h | h in holes[..|holes| - 1] :: h in holes && holes[|holes| - 1] < h
  {
    PopHole(holes);
    NoHoleBelow(holes, holes[|holes| - 1]);
  }

  /** Nobody who sits at slot n or past it carries a bias. */
  ghost predicate NonePast(index: map<ReqId, nat>, biases: map<ReqId, Bias>, n: nat) {
    forall id | id in index && index[id] >= n :: id in biases && biases[id] == None
  }

  /** What closing the holes does: every bias stays with its request; no bias is left behind exactly
      when no request past the end carries one; the others do not move, nor does anyone below every
      hole. */
  ghost predicate Settled(t: Slots, holes: seq<nat>, reqIds: seq<Option<ReqId>>, index: map<ReqId, nat>,
                          bias: seq<Bias>)
  {
    t.Tidy? ==>
      && Indexed(index, |bias|) && BiasMap(index, bias) == t.biases && index.Keys == t.index.Keys
      && (Clean(reqIds, bias) <==> NonePast(t.index, t.biases, |t.index|))
      && (forall id | id in t.index && t.index[id] < |t.index| :: index[id] == t.index[id])
      && (forall id | id in t.index && (forall h | h in holes :: t.index[id] < h) :: t.index[id] < |t.index|)
  }

  /** What a step does: who stays keeps the bias, who enters brings it; no bias is left behind exactly when no request
      that stays, but sits past the end, carries one; the others that stay do not move. */
  ghost predicate Seats(t: Slots, reqs: map<ReqId, Req>, reqIds: seq<Option<ReqId>>, index: map<ReqId, nat>,
                        bias: seq<Bias>) {
    t.Tidy? ==>
      && Indexed(index, |bias|) && t.index.Keys == t.biases.Keys && t.index.Keys <= index.Keys <= reqs.Keys
      && (forall id | id in index ::
            BiasMap(index, bias)[id] == if id in t.index then t.biases[id] else reqs[id].sampling.logitBias)
      && (Clean(reqIds, bias) <==> NonePast(t.index, t.biases, |index|))
      && (forall id | id in t.index && t.index[id] < |index| :: index[id] == t.index[id])
  }

  /** Who sits past the end has been there before. */
  lemma EnteredPast(t: Slots, t': Slots, reqs: map<ReqId, Req>, added: set<ReqId>, holes: seq<nat>)
    requires Entered(t, t', reqs, added, holes) && t.Tidy?
    requires t'.Tidy? &&
             forall id | id in t'.index && (forall h | h in holes :: t'.index[id] < h) :: t'.index[id] < |t'.index|
    ensures NonePast(t'.index, t'.biases, |t'.index|) <==> NonePast(t.index, t.biases, |t'.index|)
  {
    forall id | id in t'.index && t'.index[id] >= |t'.index|
      ensures id in t.index && t.index[id] == t'.index[id] && t.biases[id] == t'.biases[id]
    {
      assert id !in added;
    }
  }

  lemma EnteredBiases(t: Slots, t': Slots, reqs: map<ReqId, Req>, added: set<ReqId>, holes: seq<nat>)
    requires Entered(t, t', reqs, added, holes)
    ensures t.Tidy? <==> t'.Tidy?
    ensures t.Tidy? ==> t.index.Keys == t.biases.Keys && t.index.Keys <= t'.index.Keys == t'.biases.Keys
    ensures t.Tidy? ==> forall id | id in t'.index && id !in t.index :: id in reqs
    ensures t.Tidy? ==> forall id | id in t'.index ::
              t'.biases[id] == if id in t.index then t.biases[id] else reqs[id].sampling.logitBias
    ensures t.Tidy? ==> forall id | id in t.index :: t'.index[id] == t.index[id]
  {}

  lemma EnteredSeats(t: Slots, t': Slots, reqs: map<ReqId, Req>, added: set<ReqId>, holes: seq<nat>,
                     reqIds: seq<Option<ReqId>>, index: map<ReqId, nat>, bias: seq<Bias>)
    requires Entered(t, t', reqs, added, holes) && Settled(t', holes, reqIds, index, bias)
    requires index.Keys <= reqs.Keys
    ensures Seats(t, reqs, reqIds, index, bias)
  {
    hide Clean, BiasMap, Entered, NonePast;
    EnteredBiases(t, t', reqs, added, holes);
    if t.Tidy? {
      EnteredPast(t, t', reqs, added, holes);
      assert |index.Keys| == |t'.index.Keys|;
    }
  }

  /** The requests that leave the batch. */
  function Leaving(live: set<ReqId>, so: SchedulerOutput): set<ReqId> {
    IdSet(so.finished) + (live - IdSet(so.finished) - so.scheduled.Keys)
  }

  lemma {:induction false} Spread(s: seq<nat>)
    requires Descending(s) && s != []
    ensures s[0] - s[|s| - 1] >= |s| - 1
  {
    if |s| > 1 {
      Spread(s[1..]);
    }
  }

  /** The slots below a full one that lies below every hole are full. */
  lemma LowSlot(reqIds: seq<Option<ReqId>>, holes: seq<nat>, slot: nat)
    requires ListsHoles(reqIds, holes) && slot < |reqIds| && forall h | h in holes :: slot < h
    ensures slot < CountFull(reqIds)
  {
    HolesAndFull(reqIds, holes);
    if holes != [] {
      assert holes[0] in holes && holes[|holes| - 1] in holes;
      Spread(holes);
    }
  }

  // ---- the plan of a step ----

  /** The requests that stay in the batch: neither finished nor left out. */
  function Staying(live: set<ReqId>, so: SchedulerOutput): set<ReqId> {
    (live - IdSet(so.finished)) * so.scheduled.Keys
  }

  lemma StayingRows(rows: map<ReqId, Row>, so: SchedulerOutput)
    ensures var unfinished := rows - IdSet(so.finished);
            (unfinished - (unfinished.Keys - so.scheduled.Keys)).Keys == Staying(rows.Keys, so)
  {}

  lemma LiveKnown(reqs: map<ReqId, Req>, lists: map<ReqId, TokenList>, rows: map<ReqId, Row>, vocab: int, maxLen: nat)
    requires Linked(reqs, lists, rows, vocab, maxLen)
    ensures rows.Keys <= reqs.Keys
  {}

  lemma {:induction false} NewLeavesOthers(reqs: map<ReqId, Req>, news: seq<NewRequest>, k: nat, id: ReqId)
    requires k <= |news| && id in reqs && forall n | n in news :: n.id != id
    ensures WithNew(reqs, news, k)[id] == reqs[id]
  {
    if k > 0 {
      NewLeavesOthers(reqs, news, k - 1, id);
    }
  }

  lemma {:induction false} NewAt(reqs: map<ReqId, Req>, news: seq<NewRequest>, k: nat, i: nat)
    requires i < k <= |news| && forall a, b | 0 <= a < b < |news| :: news[a].id != news[b].id
    ensures news[i].id in WithNew(reqs, news, k) && WithNew(reqs, news, k)[news[i].id] == Fresh(news[i])
  {
    if i < k - 1 {
      NewAt(reqs, news, k - 1, i);
    }
  }

  lemma {:induction false} NewKeys(reqs: map<ReqId, Req>, news: seq<NewRequest>, k: nat, id: ReqId)
    requires k <= |news| && id in WithNew(reqs, news, k)
    ensures id in reqs || exists n :: n in news && n.id == id
  {
    if k > 0 && id != news[k - 1].id {
      NewKeys(reqs, news, k - 1, id);
    } else if k > 0 {
      assert news[k - 1] in news;
    }
  }

  lemma {:induction false} CachedAt(reqs: map<ReqId, Req>, cached: seq<CachedUpdate>, k: nat, id: ReqId)
    requires k <= |cached| && id in reqs && forall a, b | 0 <= a < b < |cached| :: cached[a].id != cached[b].id
    ensures forall i | 0 <= i < k && cached[i].id == id ::
              WithCached(reqs, cached, k)[id] == Updated(reqs[id], cached[i])
    ensures (forall i | 0 <= i < k :: cached[i].id != id) ==> WithCached(reqs, cached, k)[id] == reqs[id]
  {
    if k > 0 {
      hide Updated;
      CachedAt(reqs, cached, k - 1, id);
    }
  }

  lemma {:induction false} CachedKeepsSampling(reqs: map<ReqId, Req>, cached: seq<CachedUpdate>, k: nat, id: ReqId)
    requires k <= |cached| && id in reqs
    ensures WithCached(reqs, cached, k)[id].sampling == reqs[id].sampling
  {
    if k > 0 {
      CachedKeepsSampling(reqs, cached, k - 1, id);
    }
  }

  /** A request that stays is sampled as before. */
  lemma StayingSampling(reqs: map<ReqId, Req>, live: set<ReqId>, so: SchedulerOutput, maxReqs: nat, maxLen: nat,
                        id: ReqId)
    requires Legal(reqs, live, so, maxReqs, maxLen) && live <= reqs.Keys && id in Staying(live, so)
    ensures id in NextRequests(reqs, so) && NextRequests(reqs, so)[id].sampling == reqs[id].sampling
  {
    var left := reqs - IdSet(so.finished);
    NewLeavesOthers(left, so.news, |so.news|, id);
    CachedKeepsSampling(WithNew(left, so.news, |so.news|), so.cached, |so.cached|, id);
  }

  lemma DistinctParts(so: SchedulerOutput)
    requires NoDup(so.Ids())
    ensures forall a, b | 0 <= a < b < |so.news| :: so.news[a].id != so.news[b].id
    ensures forall a, b | 0 <= a < b < |so.cached| :: so.cached[a].id != so.cached[b].id
    ensures forall n, u | n in so.news && u in so.cached :: n.id != u.id
  {
    hide SchedulerOutput.Ids;
    var ids, m := so.Ids(), |so.news|;
    forall a, b | 0 <= a < b < |so.news| ensures so.news[a].id != so.news[b].id {
      assert ids[a] == so.news[a].id && ids[b] == so.news[b].id;
    }
    forall a, b | 0 <= a < b < |so.cached| ensures so.cached[a].id != so.cached[b].id {
      assert ids[m + a] == so.cached[a].id && ids[m + b] == so.cached[b].id;
    }
    forall n, u | n in so.news && u in so.cached ensures n.id != u.id {
      var a :| 0 <= a < |so.news| && so.news[a] == n;
      var b :| 0 <= b < |so.cached| && so.cached[b] == u;
      assert ids[a] == n.id && ids[m + b] == u.id;
    }
  }

  lemma ScheduledParts(reqs: map<ReqId, Req>, live: set<ReqId>, so: SchedulerOutput, maxReqs: nat, maxLen: nat)
    requires Legal(reqs, live, so, maxReqs, maxLen)
    ensures forall n | n in so.news :: n.id in so.scheduled
    ensures forall u | u in so.cached :: u.id in so.scheduled && u.id in reqs - IdSet(so.finished)
  {
    forall n | n in so.news ensures n.id in so.scheduled {
      var i :| 0 <= i < |so.news| && so.news[i] == n;
      assert so.Ids()[i] in IdSet(so.Ids());
    }
    forall u | u in so.cached ensures u.id in so.scheduled {
      var i :| 0 <= i < |so.cached| && so.cached[i] == u;
      assert so.Ids()[|so.news| + i] in IdSet(so.Ids());
    }
  }

  /** What the scheduler's word makes of a request it has sent before. */
  lemma NextOfCached(reqs: map<ReqId, Req>, live: set<ReqId>, so: SchedulerOutput, maxReqs: nat, maxLen: nat,
                     u: CachedUpdate)
    requires Legal(reqs, live, so, maxReqs, maxLen) && u in so.cached
    ensures u.id in reqs && u.id in NextRequests(reqs, so) && u.id in so.scheduled
    ensures var q, q' := reqs[u.id], NextRequests(reqs, so)[u.id];
            && q'.computed == u.computed
            && (!u.resumed ==> q'.blocks == q.blocks + if u.blocks.Some? then u.blocks.value else [])
            && (u.resumed ==> u.blocks.Some? && q'.blocks == u.blocks.value)
            && q'.prompt == q.prompt && q'.output == q.output && q'.sampling == q.sampling
            && q'.generator == q.generator && q'.lora == q.lora
  {
    hide Fresh, IdSet, NoDup;
    ScheduledParts(reqs, live, so, maxReqs, maxLen);
    DistinctParts(so);
    var left := reqs - IdSet(so.finished);
    NewLeavesOthers(left, so.news, |so.news|, u.id);
    CachedAt(WithNew(left, so.news, |so.news|), so.cached, |so.cached|, u.id);
  }

  /** What it makes of a request it sends for the first time. */
  lemma NextOfNew(reqs: map<ReqId, Req>, live: set<ReqId>, so: SchedulerOutput, maxReqs: nat, maxLen: nat,
                  n: NewRequest)
    requires Legal(reqs, live, so, maxReqs, maxLen) && n in so.news
    ensures n.id in NextRequests(reqs, so) && n.id in so.scheduled
    ensures var q' := NextRequests(reqs, so)[n.id];
            && q'.prompt == n.prompt && q'.output == [] && q'.sampling == n.sampling && q'.lora == n.lora
            && q'.generator == (if n.sampling.temperature < 0.00001 then None else n.seed)
            && q'.computed == n.computed && q'.blocks == n.blocks
  {
    DistinctParts(so);
    var left := reqs - IdSet(so.finished);
    var i :| 0 <= i < |so.news| && so.news[i] == n;
    ScheduledParts(reqs, live, so, maxReqs, maxLen);
    NewAt(left, so.news, |so.news|, i);
    CachedAt(WithNew(left, so.news, |so.news|), so.cached, |so.cached|, n.id);
  }

  /** What it makes of the others: the finished ones are forgotten, and nothing else happens. */
  lemma NextOfOther(reqs: map<ReqId, Req>, live: set<ReqId>, so: SchedulerOutput, maxReqs: nat, maxLen: nat, id: ReqId)
    requires Legal(reqs, live, so, maxReqs, maxLen)
    requires (forall n | n in so.news :: n.id != id) && forall u | u in so.cached :: u.id != id
    ensures id in NextRequests(reqs, so) <==> id in reqs && id !in so.finished
    ensures id in NextRequests(reqs, so) ==> NextRequests(reqs, so)[id] == reqs[id]
  {
    DistinctParts(so);
    var left := reqs - IdSet(so.finished);
    if id in left {
      NewLeavesOthers(left, so.news, |so.news|, id);
      CachedAt(WithNew(left, so.news, |so.news|), so.cached, |so.cached|, id);
    }
    if id in NextRequests(reqs, so) {
      NewKeys(left, so.news, |so.news|, id);
    }
  }

  lemma KnownAfter(reqs: map<ReqId, Req>, live: set<ReqId>, so: SchedulerOutput, maxReqs: nat, maxLen: nat, id: ReqId)
    requires Legal(reqs, live, so, maxReqs, maxLen) && forall n | n in so.news :: n.id != id
    ensures id in NextRequests(reqs, so) <==> id in reqs && id !in so.finished
  {
    if u :| u in so.cached && u.id == id {
      NextOfCached(reqs, live, so, maxReqs, maxLen, u);
    } else {
      NextOfOther(reqs, live, so, maxReqs, maxLen, id);
    }
  }

  lemma Unscheduled(reqs: map<ReqId, Req>, live: set<ReqId>, so: SchedulerOutput, maxReqs: nat, maxLen: nat, id: ReqId)
    requires Legal(reqs, live, so, maxReqs, maxLen) && id !in so.scheduled && id in NextRequests(reqs, so)
    ensures id in reqs && NextRequests(reqs, so)[id] == reqs[id]
  {
    forall i | 0 <= i < |so.news| ensures so.news[i].id != id {
      assert so.Ids()[i] in IdSet(so.Ids());
    }
    forall i | 0 <= i < |so.cached| ensures so.cached[i].id != id {
      assert so.Ids()[|so.news| + i] in IdSet(so.Ids());
    }
    NextOfOther(reqs, live, so, maxReqs, maxLen, id);
  }

  /** Every bias is its request's own. */
  ghost predicate OwnBiases(reqs: map<ReqId, Req>, biases: map<ReqId, Bias>) {
    forall id | id in biases :: id in reqs && biases[id] == reqs[id].sampling.logitBias
  }

  /** Some request that stays, but sits past the end, carries a bias, and will leave it behind. */
  ghost predicate MovesBias(reqs: map<ReqId, Req>, places: map<ReqId, nat>, so: SchedulerOutput) {
    exists id :: id in Staying(places.Keys, so) && id in reqs
                 && places[id] >= |so.scheduled| && reqs[id].sampling.logitBias != None
  }

  /** What is known of the requests that stay. */
  ghost predicate Stayed(t: Slots, places: map<ReqId, nat>, reqs: map<ReqId, Req>, next: map<ReqId, Req>,
                         so: SchedulerOutput) {
    && t.Tidy? && t.index.Keys == t.biases.Keys == Staying(places.Keys, so)
    && forall id | id in t.index ::
         && id in places && t.index[id] == places[id] && id in reqs && id in next
         && t.biases[id] == reqs[id].sampling.logitBias == next[id].sampling.logitBias
  }

  lemma StayedOwn(t: Slots, places: map<ReqId, nat>, reqs: map<ReqId, Req>, next: map<ReqId, Req>,
                  so: SchedulerOutput, reqIds: seq<Option<ReqId>>, index: map<ReqId, nat>, bias: seq<Bias>)
    requires Stayed(t, places, reqs, next, so) && Seats(t, next, reqIds, index, bias)
    ensures Indexed(index, |bias|) && OwnBiases(next, BiasMap(index, bias))
  {
    hide Clean, Staying;
  }

  lemma StayedClean(t: Slots, places: map<ReqId, nat>, reqs: map<ReqId, Req>, next: map<ReqId, Req>,
                    so: SchedulerOutput, reqIds: seq<Option<ReqId>>, index: map<ReqId, nat>, bias: seq<Bias>)
    requires Stayed(t, places, reqs, next, so) && Seats(t, next, reqIds, index, bias) && |index| == |so.scheduled|
    ensures Clean(reqIds, bias) <==> !MovesBias(reqs, places, so)
    ensures forall id | id in Staying(places.Keys, so) && places[id] < |so.scheduled| ::
              id in index && index[id] == places[id]
  {
    hide Clean, Staying;
    if id :| id in t.index && t.index[id] >= |index| && t.biases[id] != None {
      assert id in Staying(places.Keys, so) && id in reqs && places[id] >= |so.scheduled|;
    }
  }

  lemma StayedIs(places: map<ReqId, nat>, biases: map<ReqId, Bias>, reqs: map<ReqId, Req>, so: SchedulerOutput,
                 maxReqs: nat, maxLen: nat)
    requires Legal(reqs, places.Keys, so, maxReqs, maxLen) && places.Keys == biases.Keys <= reqs.Keys
    requires OwnBiases(reqs, biases)
    ensures Stayed(Tidy(places, biases).Without(Leaving(places.Keys, so)), places, reqs, NextRequests(reqs, so), so)
  {
    hide Legal, NextRequests, IdSet;
    var t := Tidy(places, biases).Without(Leaving(places.Keys, so));
    assert t.index.Keys == Staying(places.Keys, so) == t.biases.Keys;
    forall id | id in t.index
      ensures id in NextRequests(reqs, so) && NextRequests(reqs, so)[id].sampling == reqs[id].sampling
    {
      StayingSampling(reqs, places.Keys, so, maxReqs, maxLen, id);
    }
  }

  /** In a table that has nothing left behind and where every bias is its request's own: so it stays, and something is
      left behind exactly when a request with a bias has to move. */
  lemma SeatsOwn(places: map<ReqId, nat>, biases: map<ReqId, Bias>, reqs: map<ReqId, Req>, so: SchedulerOutput,
                 maxReqs: nat, maxLen: nat, reqIds: seq<Option<ReqId>>, index: map<ReqId, nat>, bias: seq<Bias>)
    requires Legal(reqs, places.Keys, so, maxReqs, maxLen) && places.Keys == biases.Keys <= reqs.Keys
    requires OwnBiases(reqs, biases) && index.Keys == so.scheduled.Keys
    requires Seats(Tidy(places, biases).Without(Leaving(places.Keys, so)), NextRequests(reqs, so), reqIds, index, bias)
    ensures Indexed(index, |bias|) && OwnBiases(NextRequests(reqs, so), BiasMap(index, bias))
    ensures Clean(reqIds, bias) <==> !MovesBias(reqs, places, so)
    ensures forall id | id in Staying(places.Keys, so) && places[id] < |so.scheduled| ::
              id in index && index[id] == places[id]
  {
    hide Clean, Legal, NextRequests, IdSet, Seats, OwnBiases, MovesBias, Staying, Leaving, Stayed;
    var t := Tidy(places, biases).Without(Leaving(places.Keys, so));
    assert |index| == |index.Keys| == |so.scheduled.Keys| == |so.scheduled|;
    StayedIs(places, biases, reqs, so, maxReqs, maxLen);
    StayedOwn(t, places, reqs, NextRequests(reqs, so), so, reqIds, index, bias);
    StayedClean(t, places, reqs, NextRequests(reqs, so), so, reqIds, index, bias);
  }

  /** What the scheduler promises is what the later parts of the step need. */
  lemma PlanReady(reqs: map<ReqId, Req>, live: set<ReqId>, so: SchedulerOutput, maxReqs: nat, maxLen: nat)
    requires Legal(reqs, live, so, maxReqs, maxLen) && live <= reqs.Keys
    ensures forall n | n in so.news :: n.id !in Staying(live, so) && Fits(Fresh(n), maxLen)
    ensures Ready(so, WithNew(reqs - IdSet(so.finished), so.news, |so.news|), Staying(live, so))
  {}

  /** Known requests, each listed once, that are not in the batch and make it the scheduled ones. */
  ghost predicate Completes(toAdd: seq<ReqId>, known: set<ReqId>, live: set<ReqId>, scheduled: set<ReqId>,
                            maxReqs: nat) {
    && NoDup(toAdd) && IdSet(toAdd) <= known && IdSet(toAdd) !! live
    && live + IdSet(toAdd) == scheduled && |scheduled| <= maxReqs
  }

  lemma ScheduledKnown(reqs: map<ReqId, Req>, live: set<ReqId>, so: SchedulerOutput, maxReqs: nat, maxLen: nat)
    requires Legal(reqs, live, so, maxReqs, maxLen)
    ensures forall id | id in so.Ids() :: id in NextRequests(reqs, so)
  {
    hide Fresh, Updated;
    var ids := so.Ids();
    forall id | id in ids ensures id in NextRequests(reqs, so) {
      var i :| 0 <= i < |ids| && ids[i] == id;
      if i < |so.news| {
        assert so.news[i].id == id;
      } else {
        var u := so.cached[i - |so.news|];
        assert u in so.cached && u.id == id;
      }
    }
  }

  /** The picked requests are known, are not in the batch yet, and complete the scheduled ones. */
  lemma PlanComplete(reqs: map<ReqId, Req>, live: set<ReqId>, so: SchedulerOutput, maxReqs: nat, maxLen: nat,
                     toAdd: seq<ReqId>)
    requires Legal(reqs, live, so, maxReqs, maxLen) && live <= reqs.Keys
    requires Picks(so.Ids(), |so.Ids()|, toAdd, Staying(live, so))
    ensures Completes(toAdd, NextRequests(reqs, so).Keys, Staying(live, so), so.scheduled.Keys, maxReqs)
  {
    hide NextRequests;
    var ids := so.Ids();
    assert ids[..|ids|] == ids;
    ScheduledKnown(reqs, live, so, maxReqs, maxLen);
  }

  lemma SameSets(unfinished: set<ReqId>, scheduled: set<ReqId>, added: set<ReqId>)
    requires added !! unfinished * scheduled && unfinished * scheduled + added == scheduled
    ensures unfinished - scheduled == {} && added == {} <==> unfinished == scheduled
  {
    if unfinished == scheduled {
      assert unfinished * scheduled == scheduled;
    }
    if unfinished - scheduled == {} && added == {} {
      assert unfinished <= scheduled;
    }
  }

  /** Nothing is reported exactly when the batch holds the same requests, but for the finished ones. */
  lemma NothingReported(live: set<ReqId>, so: SchedulerOutput, toAdd: seq<ReqId>, known: set<ReqId>, maxReqs: nat)
    requires Completes(toAdd, known, Staying(live, so), so.scheduled.Keys, maxReqs)
    ensures live - IdSet(so.finished) - so.scheduled.Keys == {} && toAdd == []
            <==> live - IdSet(so.finished) == so.scheduled.Keys
  {
    SameSets(live - IdSet(so.finished), so.scheduled.Keys, IdSet(toAdd));
    assert toAdd != [] ==> toAdd[0] in IdSet(toAdd);
  }
}
