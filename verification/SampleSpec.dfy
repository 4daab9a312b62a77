/** The bookkeeping behind a sampling step, on values: which slots a step completes, and what their requests become. */
module SampleSpec {
  import opened Basics
  import opened InputBatches
  import opened RunnerSpec

  /** A slot whose request the step completes, and the position its token goes to. */
  datatype Pending = Pending(slot: nat, id: ReqId, seqLen: nat)

  /** The requests of the first n slots can be looked up. */
  ghost predicate Seated(reqIds: seq<Option<ReqId>>, n: nat, reqs: map<ReqId, Req>, scheduled: map<ReqId, nat>) {
    n <= |reqIds| && forall i | 0 <= i < n :: reqIds[i].Some? && reqIds[i].value in reqs && reqIds[i].value in scheduled
  }

  ghost predicate DueAt(reqIds: seq<Option<ReqId>>, i: nat, reqs: map<ReqId, Req>, scheduled: map<ReqId, nat>)
    requires i < |reqIds| && Seated(reqIds, |reqIds|, reqs, scheduled)
  {
    Due(reqs[reqIds[i].value], scheduled[reqIds[i].value])
  }

  /** The completed slots among the first n, in order. */
  ghost function Pendings(reqIds: seq<Option<ReqId>>, n: nat, reqs: map<ReqId, Req>,
                          scheduled: map<ReqId, nat>): seq<Pending>
    requires n <= |reqIds| && Seated(reqIds, |reqIds|, reqs, scheduled)
  {
    if n == 0 then []
    else
      var id := reqIds[n - 1].value;
      Pendings(reqIds, n - 1, reqs, scheduled)
      + if DueAt(reqIds, n - 1, reqs, scheduled) then [Pending(n - 1, id, reqs[id].computed + scheduled[id])] else []
  }

  /** The slots of partial prefills among the first n. */
  ghost function Partial(reqIds: seq<Option<ReqId>>, n: nat, reqs: map<ReqId, Req>,
                         scheduled: map<ReqId, nat>): seq<nat>
    requires n <= |reqIds| && Seated(reqIds, |reqIds|, reqs, scheduled)
  {
    if n == 0 then []
    else Partial(reqIds, n - 1, reqs, scheduled) + if DueAt(reqIds, n - 1, reqs, scheduled) then [] else [n - 1]
  }

  /** An entry names the request of a completed slot and the end of its tokens. */
  ghost predicate Entry(p: Pending, n: nat, reqIds: seq<Option<ReqId>>, reqs: map<ReqId, Req>,
                        scheduled: map<ReqId, nat>)
    requires n <= |reqIds| && Seated(reqIds, |reqIds|, reqs, scheduled)
  {
    && p.slot < n && reqIds[p.slot] == Some(p.id) && DueAt(reqIds, p.slot, reqs, scheduled)
    && p.seqLen == reqs[p.id].computed + scheduled[p.id]
  }

  ghost predicate DistinctIds(due: seq<Pending>) {
    forall k, l | 0 <= k < l < |due| :: due[k].id != due[l].id
  }

  ghost predicate HasId(due: seq<Pending>, id: ReqId) {
    exists k :: 0 <= k < |due| && due[k].id == id
  }

  lemma {:induction false} PendingsExact(reqIds: seq<Option<ReqId>>, n: nat, reqs: map<ReqId, Req>,
                                         scheduled: map<ReqId, nat>,
                                         index: map<ReqId, nat>)
    requires n <= |reqIds| && Seated(reqIds, |reqIds|, reqs, scheduled) && Inverse(reqIds, index)
    ensures forall k | 0 <= k < |Pendings(reqIds, n, reqs, scheduled)| ::
              Entry(Pendings(reqIds, n, reqs, scheduled)[k], n, reqIds, reqs, scheduled)
    ensures DistinctIds(Pendings(reqIds, n, reqs, scheduled))
    ensures forall i | 0 <= i < n && DueAt(reqIds, i, reqs, scheduled) ::
              HasId(Pendings(reqIds, n, reqs, scheduled), reqIds[i].value)
  {
    if n > 0 {
      PendingsExact(reqIds, n - 1, reqs, scheduled, index);
      var before, due := Pendings(reqIds, n - 1, reqs, scheduled), Pendings(reqIds, n, reqs, scheduled);
      assert forall k | 0 <= k < |before| :: due[k] == before[k] && Entry(before[k], n - 1, reqIds, reqs, scheduled);
      if DueAt(reqIds, n - 1, reqs, scheduled) {
        assert due[|before|].id == reqIds[n - 1].value;
        forall k | 0 <= k < |before| ensures before[k].id != due[|before|].id {
          assert index[before[k].id] == before[k].slot;
        }
      }
      forall i | 0 <= i < n && DueAt(reqIds, i, reqs, scheduled) ensures HasId(due, reqIds[i].value) {
        if i < n - 1 {
          assert HasId(before, reqIds[i].value);
        }
      }
    }
  }

  lemma {:induction false} PartialExact(reqIds: seq<Option<ReqId>>, n: nat, reqs: map<ReqId, Req>,
                                        scheduled: map<ReqId, nat>)
    requires n <= |reqIds| && Seated(reqIds, |reqIds|, reqs, scheduled)
    ensures forall i: nat :: i in Partial(reqIds, n, reqs, scheduled) <==> i < n && !DueAt(reqIds, i, reqs, scheduled)
  {
    if n > 0 {
      PartialExact(reqIds, n - 1, reqs, scheduled);
    }
  }

  /** The request with one more output token. */
  function Grow(q: Req, token: int): Req {
    q.(output := q.output + [token])
  }

  lemma GrowIs(q: Req, token: int)
    ensures Grow(q, token) == q.(output := q.output + [token])
  {}

  ghost predicate Usable(reqs: map<ReqId, Req>, due: seq<Pending>, selected: seq<int>) {
    forall j | 0 <= j < |due| :: due[j].slot < |selected| && due[j].id in reqs
  }

  /** The requests after the first k completed slots got their tokens. */
  ghost function Grown(reqs: map<ReqId, Req>, due: seq<Pending>, selected: seq<int>, k: nat): (r: map<ReqId, Req>)
    requires k <= |due| && Usable(reqs, due, selected)
    ensures r.Keys == reqs.Keys
  {
    if k == 0 then reqs
    else
      var before, p := Grown(reqs, due, selected, k - 1), due[k - 1];
      before[p.id := Grow(before[p.id], selected[p.slot])]
  }

  lemma GrownNone(reqs: map<ReqId, Req>, due: seq<Pending>, selected: seq<int>)
    requires Usable(reqs, due, selected)
    ensures Grown(reqs, due, selected, 0) == reqs
  {}

  /** A completed request has grown by the token of its slot, once. */
  lemma {:induction false} GrownAt(reqs: map<ReqId, Req>, due: seq<Pending>, selected: seq<int>, k: nat, j: nat)
    requires k <= |due| && j < |due| && Usable(reqs, due, selected) && DistinctIds(due)
    ensures Grown(reqs, due, selected, k)[due[j].id]
            == if j < k then Grow(reqs[due[j].id], selected[due[j].slot]) else reqs[due[j].id]
  {
    if k > 0 {
      GrownAt(reqs, due, selected, k - 1, j);
      assert j < k - 1 ==> due[j].id != due[k - 1].id;
      assert k - 1 < j ==> due[k - 1].id != due[j].id;
    }
  }

  /** No other request has changed. */
  lemma {:induction false} GrownElse(reqs: map<ReqId, Req>, due: seq<Pending>, selected: seq<int>, k: nat, id: ReqId)
    requires k <= |due| && Usable(reqs, due, selected) && id in reqs && !HasId(due, id)
    ensures Grown(reqs, due, selected, k)[id] == reqs[id]
  {
    if k > 0 {
      GrownElse(reqs, due, selected, k - 1, id);
      assert due[k - 1].id != id;
    }
  }

  /** Tokens named by request are the tokens of the slots. */
  ghost predicate Chosen(reqIds: seq<Option<ReqId>>, selected: seq<int>, tokens: map<ReqId, int>) {
    && |selected| == |reqIds|
    && forall i | 0 <= i < |reqIds| && reqIds[i].Some? ::
      reqIds[i].value in tokens && tokens[reqIds[i].value] == selected[i]
  }

  lemma PendingsUsable(reqIds: seq<Option<ReqId>>, index: map<ReqId, nat>, reqs: map<ReqId, Req>,
                       scheduled: map<ReqId, nat>,
                       selected: seq<int>)
    requires Seated(reqIds, |reqIds|, reqs, scheduled) && Inverse(reqIds, index) && |selected| == |reqIds|
    ensures var due := Pendings(reqIds, |reqIds|, reqs, scheduled); Usable(reqs, due, selected) && DistinctIds(due)
  {
    var due := Pendings(reqIds, |reqIds|, reqs, scheduled);
    PendingsExact(reqIds, |reqIds|, reqs, scheduled, index);
    forall j | 0 <= j < |due| ensures due[j].slot < |selected| && due[j].id in reqs {
      assert Entry(due[j], |reqIds|, reqIds, reqs, scheduled);
    }
  }

  lemma GrownIsSampledAt(reqIds: seq<Option<ReqId>>, index: map<ReqId, nat>, reqs: map<ReqId, Req>,
                         scheduled: map<ReqId, nat>,
                         selected: seq<int>, tokens: map<ReqId, int>, id: ReqId)
    requires Seated(reqIds, |reqIds|, reqs, scheduled) && Inverse(reqIds, index) && index.Keys == scheduled.Keys
    requires Chosen(reqIds, selected, tokens) && scheduled.Keys <= tokens.Keys && id in reqs
    requires Usable(reqs, Pendings(reqIds, |reqIds|, reqs, scheduled), selected)
    ensures var due := Pendings(reqIds, |reqIds|, reqs, scheduled);
            Grown(reqs, due, selected, |due|)[id]
            == if id in scheduled && Due(reqs[id], scheduled[id]) then Grow(reqs[id], tokens[id]) else reqs[id]
  {
    var due := Pendings(reqIds, |reqIds|, reqs, scheduled);
    PendingsExact(reqIds, |reqIds|, reqs, scheduled, index);
    if id in scheduled && Due(reqs[id], scheduled[id]) {
      assert DueAt(reqIds, index[id], reqs, scheduled) && HasId(due, reqIds[index[id]].value);
    }
    if HasId(due, id) {
      var j :| 0 <= j < |due| && due[j].id == id;
      assert Entry(due[j], |reqIds|, reqIds, reqs, scheduled);
      GrownAt(reqs, due, selected, |due|, j);
    } else {
      GrownElse(reqs, due, selected, |due|, id);
    }
  }

  /** The sampler's tokens, slot by slot. */
  function Select(reqIds: seq<Option<ReqId>>, tokens: map<ReqId, int>): (selected: seq<int>)
    requires forall i | 0 <= i < |reqIds| :: reqIds[i].Some? && reqIds[i].value in tokens
    ensures Chosen(reqIds, selected, tokens)
  {
    seq(|reqIds|, i requires 0 <= i < |reqIds| => tokens[reqIds[i].value])
  }

  /** Growing the completed slots is what a sampling step means, whatever slots the requests sit in. */
  lemma GrownIsSampled(reqIds: seq<Option<ReqId>>, index: map<ReqId, nat>, reqs: map<ReqId, Req>,
                       scheduled: map<ReqId, nat>,
                       selected: seq<int>, tokens: map<ReqId, int>)
    requires Seated(reqIds, |reqIds|, reqs, scheduled) && Inverse(reqIds, index) && index.Keys == scheduled.Keys
    requires |selected| == |reqIds| && Chosen(reqIds, selected, tokens) && scheduled.Keys <= tokens.Keys
    ensures var due := Pendings(reqIds, |reqIds|, reqs, scheduled);
            Usable(reqs, due, selected) && Grown(reqs, due, selected, |due|) == Sampled(reqs, scheduled, tokens)
  {
    hide Pendings, Inverse, Seated, Chosen, Usable, Grown;
    PendingsUsable(reqIds, index, reqs, scheduled, selected);
    var due := Pendings(reqIds, |reqIds|, reqs, scheduled);
    forall id | id in reqs ensures Grown(reqs, due, selected, |due|)[id] == Sampled(reqs, scheduled, tokens)[id] {
      GrownIsSampledAt(reqIds, index, reqs, scheduled, selected, tokens, id);
    }
  }

  /** Every entry can be written: the request sits in its slot, and its known tokens end where the step ends. */
  ghost predicate Writable(due: seq<Pending>, index: map<ReqId, nat>, reqs: map<ReqId, Req>, maxLen: nat) {
    forall j | 0 <= j < |due| ::
      && due[j].id in index && index[due[j].id] == due[j].slot
      && due[j].id in reqs && due[j].seqLen == reqs[due[j].id].NumTokens() < maxLen
  }

  /** The next entry can still be written after the entries before it. */
  lemma GrowNext(due: seq<Pending>, selected: seq<int>, k: nat, reqs: map<ReqId, Req>, index: map<ReqId, nat>,
                 maxLen: nat)
    requires k < |due| && Usable(reqs, due, selected) && DistinctIds(due) && Writable(due, index, reqs, maxLen)
    ensures var p, now := due[k], Grown(reqs, due, selected, k);
            && p.id in index && index[p.id] == p.slot && p.slot < |selected|
            && p.id in now && p.seqLen == now[p.id].NumTokens() < maxLen
            && Grown(reqs, due, selected, k + 1) == now[p.id := Grow(now[p.id], selected[p.slot])]
  {
    GrownAt(reqs, due, selected, k, k);
  }

  lemma PendingsWritable(reqIds: seq<Option<ReqId>>, index: map<ReqId, nat>, reqs: map<ReqId, Req>,
                         scheduled: map<ReqId, nat>,
                         maxLen: nat)
    requires Seated(reqIds, |reqIds|, reqs, scheduled) && Inverse(reqIds, index) && Bounded(reqs, scheduled, maxLen)
    ensures Writable(Pendings(reqIds, |reqIds|, reqs, scheduled), index, reqs, maxLen)
  {
    var due := Pendings(reqIds, |reqIds|, reqs, scheduled);
    PendingsExact(reqIds, |reqIds|, reqs, scheduled, index);
    forall j | 0 <= j < |due|
      ensures due[j].id in index && index[due[j].id] == due[j].slot
      ensures due[j].id in reqs && due[j].seqLen == reqs[due[j].id].NumTokens() < maxLen
    {
      assert Entry(due[j], |reqIds|, reqIds, reqs, scheduled);
    }
  }

  lemma AllSeated(reqIds: seq<Option<ReqId>>, index: map<ReqId, nat>, reqs: map<ReqId, Req>, scheduled: map<ReqId, nat>)
    requires Inverse(reqIds, index) && forall i | 0 <= i < |reqIds| :: reqIds[i].Some?
    requires index.Keys <= reqs.Keys && index.Keys <= scheduled.Keys
    ensures Seated(reqIds, |reqIds|, reqs, scheduled)
  {}

  /** The rows with one more token behind those of a request. */
  function Lengthened(rows: map<ReqId, Row>, id: ReqId, token: int): map<ReqId, Row>
    requires id in rows
  {
    rows[id := rows[id].(tokens := rows[id].tokens + [token])]
  }

  ghost predicate ReportedAt(valid: seq<seq<int>>, slot: nat, id: ReqId, reqs: map<ReqId, Req>,
                             scheduled: map<ReqId, nat>,
                             tokens: map<ReqId, int>) {
    && id in reqs && id in scheduled && id in tokens && slot < |valid|
    && valid[slot] == if Due(reqs[id], scheduled[id]) then [tokens[id]] else []
  }

  /** At the slot of a request: its token if the step completes it, nothing if not. */
  ghost predicate Reported(valid: seq<seq<int>>, index: map<ReqId, nat>, reqs: map<ReqId, Req>,
                           scheduled: map<ReqId, nat>,
                           tokens: map<ReqId, int>) {
    forall id | id in index :: ReportedAt(valid, index[id], id, reqs, scheduled, tokens)
  }

  /** What is returned for a request does not depend on its slot either. */
  lemma ReturnedById(reqIds: seq<Option<ReqId>>, index: map<ReqId, nat>, reqs: map<ReqId, Req>,
                     scheduled: map<ReqId, nat>,
                     selected: seq<int>, tokens: map<ReqId, int>, valid: seq<seq<int>>)
    requires Seated(reqIds, |reqIds|, reqs, scheduled) && Inverse(reqIds, index) && Chosen(reqIds, selected, tokens)
    requires |valid| == |selected|
    requires forall i | 0 <= i < |valid| ::
               valid[i] == if i in Partial(reqIds, |reqIds|, reqs, scheduled) then [] else [selected[i]]
    ensures Reported(valid, index, reqs, scheduled, tokens)
  {
    PartialExact(reqIds, |reqIds|, reqs, scheduled);
    forall id | id in index ensures ReportedAt(valid, index[id], id, reqs, scheduled, tokens) {
      var i := index[id];
      assert reqIds[i] == Some(id);
      assert i in Partial(reqIds, |reqIds|, reqs, scheduled) <==> !DueAt(reqIds, i, reqs, scheduled);
    }
  }

  lemma PartialBound(reqIds: seq<Option<ReqId>>, reqs: map<ReqId, Req>, scheduled: map<ReqId, nat>)
    requires Seated(reqIds, |reqIds|, reqs, scheduled)
    ensures forall i | i in Partial(reqIds, |reqIds|, reqs, scheduled) :: i < |reqIds|
  {
    PartialExact(reqIds, |reqIds|, reqs, scheduled);
  }

  /** A token for a request and for its row keeps them linked. */
  lemma TokenLinked(reqs: map<ReqId, Req>, lists: map<ReqId, TokenList>, rows: map<ReqId, Row>, vocab: int, maxLen: nat,
                    id: ReqId, token: int)
    requires Linked(reqs, lists, rows, vocab, maxLen) && id in rows && id in reqs && reqs[id].NumTokens() < maxLen
    ensures |rows[id].tokens| == reqs[id].NumTokens()
    ensures Linked(reqs[id := Grow(reqs[id], token)], lists, Lengthened(rows, id, token), vocab, maxLen)
  {
    TokenAgrees(reqs[id], lists[id], rows[id], vocab, token);
  }

  /** The token count decides: a request that the step takes to the end of its tokens gets its token, and its place in
      the returned list says so; any other gets nothing, and says nothing. */
  lemma SampledAt(reqs: map<ReqId, Req>, scheduled: map<ReqId, nat>, tokens: map<ReqId, int>, id: ReqId)
    requires scheduled.Keys <= tokens.Keys && id in reqs
    ensures id in Sampled(reqs, scheduled, tokens)
    ensures var q, q' := reqs[id], Sampled(reqs, scheduled, tokens)[id];
            && q'.output == q.output + (if id in scheduled && q.computed + scheduled[id] >= |q.prompt| + |q.output|
                                        then [tokens[id]] else [])
            && q'.prompt == q.prompt && q'.computed == q.computed && q'.blocks == q.blocks
            && q'.sampling == q.sampling && q'.generator == q.generator && q'.lora == q.lora
  {}

  lemma ReportedIs(valid: seq<seq<int>>, index: map<ReqId, nat>, reqs: map<ReqId, Req>, scheduled: map<ReqId, nat>,
                   tokens: map<ReqId, int>, id: ReqId)
    requires Reported(valid, index, reqs, scheduled, tokens) && id in index
    ensures index[id] < |valid| && id in reqs && id in scheduled && id in tokens
    ensures valid[index[id]]
            == if reqs[id].computed + scheduled[id] >= |reqs[id].prompt| + |reqs[id].output| then [tokens[id]] else []
  {}

  // ---- whole runs ----

  /** A step: what the scheduler sends, and the token the sampler picks for each request. */
  datatype Step = Step(so: SchedulerOutput, tokens: map<ReqId, int>)

  function AfterStep(reqs: map<ReqId, Req>, step: Step): map<ReqId, Req>
    requires step.so.scheduled.Keys <= step.tokens.Keys
  {
    Sampled(NextRequests(reqs, step.so), step.so.scheduled, step.tokens)
  }

  /** The scheduler keeps to the protocol in this step. */
  ghost predicate LegalStep(reqs: map<ReqId, Req>, live: set<ReqId>, step: Step, maxReqs: nat, maxLen: nat) {
    && Legal(reqs, live, step.so, maxReqs, maxLen) && step.so.scheduled.Keys <= step.tokens.Keys
    && Bounded(NextRequests(reqs, step.so), step.so.scheduled, maxLen)
  }

  lemma StepTokens(reqs: map<ReqId, Req>, live: set<ReqId>, step: Step, maxReqs: nat, maxLen: nat)
    requires LegalStep(reqs, live, step, maxReqs, maxLen)
    ensures step.so.scheduled.Keys <= step.tokens.Keys
  {}

  /** What a whole step makes of a request the scheduler has sent before. */
  lemma StepOfCached(reqs: map<ReqId, Req>, live: set<ReqId>, step: Step, maxReqs: nat, maxLen: nat, u: CachedUpdate)
    requires LegalStep(reqs, live, step, maxReqs, maxLen) && u in step.so.cached
    ensures u.id in reqs && u.id in AfterStep(reqs, step) && u.id in step.so.scheduled
    ensures var q, q' := reqs[u.id], AfterStep(reqs, step)[u.id];
            && q'.output == q.output + (if u.computed + step.so.scheduled[u.id] >= |q.prompt| + |q.output|
                                        then [step.tokens[u.id]] else [])
            && q'.computed == u.computed && q'.prompt == q.prompt && q'.sampling == q.sampling
            && (!u.resumed ==> q'.blocks == q.blocks + if u.blocks.Some? then u.blocks.value else [])
            && (u.resumed ==> u.blocks.Some? && q'.blocks == u.blocks.value)
  {
    hide NextRequests, Sampled;
    NextOfCached(reqs, live, step.so, maxReqs, maxLen, u);
    SampledAt(NextRequests(reqs, step.so), step.so.scheduled, step.tokens, u.id);
  }

  /** What it makes of a new one. */
  lemma StepOfNew(reqs: map<ReqId, Req>, live: set<ReqId>, step: Step, maxReqs: nat, maxLen: nat, n: NewRequest)
    requires LegalStep(reqs, live, step, maxReqs, maxLen) && n in step.so.news
    ensures n.id in AfterStep(reqs, step) && n.id in step.so.scheduled
    ensures var q' := AfterStep(reqs, step)[n.id];
            && q'.output == (if n.computed + step.so.scheduled[n.id] >= |n.prompt| then [step.tokens[n.id]] else [])
            && q'.prompt == n.prompt && q'.sampling == n.sampling && q'.computed == n.computed && q'.blocks == n.blocks
  {
    hide NextRequests, Sampled;
    NextOfNew(reqs, live, step.so, maxReqs, maxLen, n);
    SampledAt(NextRequests(reqs, step.so), step.so.scheduled, step.tokens, n.id);
  }

  /** What it makes of the requests it leaves out. */
  lemma StepOfOther(reqs: map<ReqId, Req>, live: set<ReqId>, step: Step, maxReqs: nat, maxLen: nat, id: ReqId)
    requires LegalStep(reqs, live, step, maxReqs, maxLen) && id !in step.so.scheduled && id in AfterStep(reqs, step)
    ensures id in reqs && AfterStep(reqs, step)[id] == reqs[id]
  {
    hide NextRequests;
    Unscheduled(reqs, live, step.so, maxReqs, maxLen, id);
  }

  ghost predicate LegalRun(reqs: map<ReqId, Req>, live: set<ReqId>, steps: seq<Step>, maxReqs: nat, maxLen: nat)
    decreases |steps|
  {
    steps == []
    || (LegalStep(reqs, live, steps[0], maxReqs, maxLen)
        && LegalRun(AfterStep(reqs, steps[0]), steps[0].so.scheduled.Keys, steps[1..], maxReqs, maxLen))
  }

  ghost function AfterRun(reqs: map<ReqId, Req>, live: set<ReqId>, steps: seq<Step>, maxReqs: nat,
                          maxLen: nat): map<ReqId, Req>
    requires LegalRun(reqs, live, steps, maxReqs, maxLen)
    decreases |steps|
  {
    if steps == [] then reqs
    else AfterRun(AfterStep(reqs, steps[0]), steps[0].so.scheduled.Keys, steps[1..], maxReqs, maxLen)
  }

  /** The first step of a run, and what is left of it. */
  lemma RunStep(reqs: map<ReqId, Req>, live: set<ReqId>, steps: seq<Step>, k: nat, maxReqs: nat, maxLen: nat)
    requires k < |steps| && LegalRun(reqs, live, steps[k..], maxReqs, maxLen)
    ensures LegalStep(reqs, live, steps[k], maxReqs, maxLen)
    ensures var after, next := AfterStep(reqs, steps[k]), steps[k].so.scheduled.Keys;
            && LegalRun(after, next, steps[k + 1..], maxReqs, maxLen)
            && AfterRun(reqs, live, steps[k..], maxReqs, maxLen)
               == AfterRun(after, next, steps[k + 1..], maxReqs, maxLen)
  {
    assert steps[k..][1..] == steps[k + 1..];
  }

  lemma RunEnd(reqs: map<ReqId, Req>, live: set<ReqId>, steps: seq<Step>, maxReqs: nat, maxLen: nat)
    ensures LegalRun(reqs, live, steps[|steps|..], maxReqs, maxLen)
    ensures AfterRun(reqs, live, steps[|steps|..], maxReqs, maxLen) == reqs
  {}

  // ---- biases over whole runs ----

  /** A token changes nobody's parameters. */
  lemma SampledOwn(reqs: map<ReqId, Req>, scheduled: map<ReqId, nat>, tokens: map<ReqId, int>, biases: map<ReqId, Bias>)
    requires scheduled.Keys <= tokens.Keys
    ensures OwnBiases(Sampled(reqs, scheduled, tokens), biases) <==> OwnBiases(reqs, biases)
  {
    assert forall id | id in reqs :: Sampled(reqs, scheduled, tokens)[id].sampling == reqs[id].sampling;
  }

  /** A moment between steps: what is known of the requests, where the live ones sit, whether a bias lies in a slot that
      nobody is in, and whether every live request has its own. */
  datatype Moment = Moment(reqs: map<ReqId, Req>, places: map<ReqId, nat>, clean: bool, own: bool)

  /** The scheduler's word alone, from a moment at which all is in order. */
  ghost predicate Planned(m: Moment, so: SchedulerOutput, m': Moment) {
    && m'.reqs == NextRequests(m.reqs, so) && m'.places.Keys == so.scheduled.Keys
    && (m.clean && m.own ==>
          && m'.own && (m'.clean <==> !MovesBias(m.reqs, m.places, so))
          && forall id | id in Staying(m.places.Keys, so) && m.places[id] < |so.scheduled| ::
               m'.places[id] == m.places[id])
  }

  /** From a moment at which all is in order: biases stay with their requests, nobody below the new number of requests
      moves, and something is left behind exactly when a request that has to move carries a bias. */
  ghost predicate Follows(m: Moment, step: Step, m': Moment) {
    && step.so.scheduled.Keys <= step.tokens.Keys && m'.reqs == AfterStep(m.reqs, step)
    && Planned(m, step.so, m'.(reqs := NextRequests(m.reqs, step.so)))
  }

  ghost predicate Traces(trace: seq<Moment>, steps: seq<Step>) {
    |trace| == |steps| + 1 && forall k | 0 <= k < |steps| :: Follows(trace[k], steps[k], trace[k + 1])
  }

  lemma TraceStart(steps: seq<Step>, trace: seq<Moment>)
    requires |trace| == 1
    ensures Traces(trace, steps[..0])
  {}

  lemma TraceNext(steps: seq<Step>, k: nat, trace: seq<Moment>, m: Moment)
    requires k < |steps| && |trace| == k + 1 && Traces(trace, steps[..k]) && Follows(trace[k], steps[k], m)
    ensures Traces(trace + [m], steps[..k + 1])
  {
    hide Follows;
  }

  /** A run that starts in order: up to any step no bias is ever left behind exactly when no step moved a request that
      carries one; and as long as that is so, and for one step more, every live request has its own bias. */
  lemma {:induction false} TidyRun(trace: seq<Moment>, steps: seq<Step>, n: nat)
    requires Traces(trace, steps) && n <= |steps| && trace[0].clean && trace[0].own
    ensures (forall k | 0 <= k <= n :: trace[k].clean)
            <==> (forall k | 0 <= k < n :: !MovesBias(trace[k].reqs, trace[k].places, steps[k].so))
    ensures (forall k | 0 <= k < n :: trace[k].clean) ==> forall k | 0 <= k <= n :: trace[k].own
  {
    hide MovesBias;
    if n > 0 {
      TidyRun(trace, steps, n - 1);
      assert Follows(trace[n - 1], steps[n - 1], trace[n]);
    }
  }
}
