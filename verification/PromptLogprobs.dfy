/** Prompt log-probabilities, gathered chunk by chunk while a prompt is being prefilled. */
module PromptLogprobs {
  import opened Basics
  import opened Finite

  /** A prompt, and the hidden state the model computes at each of its positions. */
  datatype Prompt<H> = Prompt(tokens: seq<int>, hidden: seq<H>)

  /** What one step computes of a request: `count` tokens from position `start` on, with their hidden states. */
  datatype Chunk<H> = Chunk(tokens: seq<int>, start: nat, count: nat, hidden: seq<H>)

  /** How many rows a chunk brings: its tokens, but for the last of the prompt, which has no successor to score. */
  function NumLogits(promptLen: nat, start: nat, count: nat): int {
    Min(count, promptLen - (start + 1))
  }

  /** Row j scores token j + 1 by the hidden state of position j. */
  function RowOf<H, R>(gather: (H, int) -> R, p: Prompt<H>, j: nat): R
    requires |p.hidden| == |p.tokens| && j + 1 < |p.tokens|
  {
    gather(p.hidden[j], p.tokens[j + 1])
  }

  /** The positions a request's rows cover: from `first` up to, and not including, `done`. */
  datatype Span = Span(first: nat, done: nat)

  /** The rows of the span are there, and the others have never been written. */
  ghost predicate Holds<H, R>(gather: (H, int) -> R, rows: seq<Option<R>>, p: Prompt<H>, span: Span) {
    && |p.hidden| == |p.tokens| == |rows| + 1 && span.first <= span.done
    && forall j | 0 <= j < |rows| ::
         rows[j] == if span.first <= j < span.done then Some(RowOf(gather, p, j)) else None
  }

  /** Every wanted request has its prompt; those with rows have the rows of their span. */
  ghost predicate Tracks<H, R>(gather: (H, int) -> R, wanted: set<ReqId>, prompts: map<ReqId, Prompt<H>>,
                               spans: map<ReqId, Span>, table: map<ReqId, seq<Option<R>>>) {
    && prompts.Keys == wanted && spans.Keys == table.Keys <= wanted
    && (forall id | id in wanted :: |prompts[id].tokens| >= 1 && |prompts[id].hidden| == |prompts[id].tokens|)
    && (forall id | id in table :: Holds(gather, table[id], prompts[id], spans[id]))
  }

  /** No two requests share their rows. */
  ghost predicate Separate<R>(inProgress: map<ReqId, array<Option<R>>>) {
    forall a, b | a in inProgress && b in inProgress && a != b :: inProgress[a] != inProgress[b]
  }

  lemma SeparateNew<R>(inProgress: map<ReqId, array<Option<R>>>, id: ReqId, rows: array<Option<R>>)
    requires Separate(inProgress) && forall k | k in inProgress :: inProgress[k] != rows
    ensures Separate(inProgress[id := rows])
  {}

  /** The chunk brings the hidden states of the prompt positions it covers. */
  ghost predicate Cuts<H>(c: Chunk<H>, p: Prompt<H>) {
    && c.tokens == p.tokens && |p.hidden| == |p.tokens| && c.count >= 1 && |c.hidden| == c.count
    && forall t | 0 <= t < c.count && c.start + t < |p.hidden| :: c.hidden[t] == p.hidden[c.start + t]
  }

  /** A request with rows goes on where they end; one without may start anywhere. */
  ghost predicate Continues<H>(c: Chunk<H>, p: Prompt<H>, spans: map<ReqId, Span>, id: ReqId) {
    Cuts(c, p) && (id in spans ==> c.start == spans[id].done)
  }

  /** The span of a request after its chunk. */
  function NextSpan<H>(spans: map<ReqId, Span>, id: ReqId, c: Chunk<H>): Span {
    Span(if id in spans then spans[id].first else c.start, c.start + c.count)
  }

  /** n more rows from `start` on. */
  ghost function Filled<H, R>(gather: (H, int) -> R, rows: seq<Option<R>>, c: Chunk<H>, n: nat): (r: seq<Option<R>>)
    requires |rows| + 1 == |c.tokens| && c.start + n <= |rows| && n <= |c.hidden|
    ensures |r| == |rows|
    ensures forall j | 0 <= j < |r| ::
              r[j] == if c.start <= j < c.start + n then Some(gather(c.hidden[j - c.start], c.tokens[j + 1]))
                else rows[j]
  {
    seq(|rows|, j requires 0 <= j < |rows| =>
      if c.start <= j < c.start + n then Some(gather(c.hidden[j - c.start], c.tokens[j + 1])) else rows[j])
  }

  function Blank<R>(n: nat): (r: seq<Option<R>>)
    ensures |r| == n && forall j | 0 <= j < n :: r[j] == None
  {
    seq(n, _ => None)
  }

  /** The number of rows of a chunk, never negative. */
  function RowCount<H>(c: Chunk<H>): nat {
    var n := NumLogits(|c.tokens|, c.start, c.count);
    if n > 0 then n else 0
  }

  /** The rows of a request before its chunk: what it has, or blank ones. */
  ghost function Before<H, R>(table: map<ReqId, seq<Option<R>>>, id: ReqId, c: Chunk<H>): seq<Option<R>> {
    if id in table then table[id] else Blank(if |c.tokens| > 0 then |c.tokens| - 1 else 0)
  }

  /** A chunk finds its rows blank, and fills exactly as far as its tokens go. */
  lemma ChunkFills<H, R>(gather: (H, int) -> R, wanted: set<ReqId>, prompts: map<ReqId, Prompt<H>>,
                         spans: map<ReqId, Span>, table: map<ReqId, seq<Option<R>>>, id: ReqId, c: Chunk<H>)
    requires Tracks(gather, wanted, prompts, spans, table) && id in wanted && Continues(c, prompts[id], spans, id)
    ensures var before, n := Before(table, id, c), RowCount(c);
            && |before| + 1 == |c.tokens| && (n > 0 ==> c.start + n <= |before|) && n <= |c.hidden|
            && (forall j | c.start <= j < c.start + n :: before[j] == None)
            && (n > 0 ==> Holds(gather, Filled(gather, before, c, n), prompts[id], NextSpan(spans, id, c)))
            && (n == 0 ==> Holds(gather, before, prompts[id], NextSpan(spans, id, c)))
  {}

  lemma TracksNext<H, R>(gather: (H, int) -> R, wanted: set<ReqId>, prompts: map<ReqId, Prompt<H>>,
                         spans: map<ReqId, Span>, table: map<ReqId, seq<Option<R>>>, id: ReqId, rows: seq<Option<R>>,
                         span: Span)
    requires Tracks(gather, wanted, prompts, spans, table) && id in wanted && Holds(gather, rows, prompts[id], span)
    ensures Tracks(gather, wanted, prompts, spans[id := span], table[id := rows])
  {}

  lemma TracksLess<H, R>(gather: (H, int) -> R, wanted: set<ReqId>, prompts: map<ReqId, Prompt<H>>,
                         spans: map<ReqId, Span>, table: map<ReqId, seq<Option<R>>>, gone: set<ReqId>)
    requires Tracks(gather, wanted, prompts, spans, table)
    ensures Tracks(gather, wanted - gone, prompts - gone, spans - gone, table - gone)
  {}

  /** Rows are dropped, and still wanted. */
  lemma TracksDropped<H, R>(gather: (H, int) -> R, wanted: set<ReqId>, prompts: map<ReqId, Prompt<H>>,
                            spans: map<ReqId, Span>, table: map<ReqId, seq<Option<R>>>, dropped: set<ReqId>)
    requires Tracks(gather, wanted, prompts, spans, table)
    ensures Tracks(gather, wanted, prompts, spans - dropped, table - dropped)
  {}

  /** All rows, each from its own position's hidden state against the next token. */
  ghost predicate Complete<H, R>(gather: (H, int) -> R, rows: seq<Option<R>>, p: Prompt<H>) {
    && |p.hidden| == |p.tokens| == |rows| + 1
    && forall j | 0 <= j < |rows| :: rows[j] == Some(RowOf(gather, p, j))
  }

  /** One run of the compiled gather: a batch of fixed size, padded with zeros. */
  function GatherBatch<H, R>(gather: (H, int) -> R, zero: H, batch: nat, states: seq<H>, ids: seq<int>): (r: seq<R>)
    requires |states| == |ids| <= batch
    ensures |r| == batch && forall i | 0 <= i < |states| :: r[i] == gather(states[i], ids[i])
  {
    var paddedStates, paddedIds := states + seq(batch - |states|, _ => zero), ids + seq(batch - |ids|, _ => 0);
    seq(batch, i requires 0 <= i < batch => gather(paddedStates[i], paddedIds[i]))
  }

  /** The chunk reaches the end of the prompt. */
  predicate Last<H>(c: Chunk<H>) {
    c.start + c.count >= |c.tokens|
  }

  // ---- one step over all requests ----

  ghost predicate AllContinue<H>(chunks: map<ReqId, Chunk<H>>, wanted: set<ReqId>, prompts: map<ReqId, Prompt<H>>,
                                 spans: map<ReqId, Span>) {
    forall id | id in wanted && id in chunks :: id in prompts && Continues(chunks[id], prompts[id], spans, id)
  }

  /** The spans once all wanted requests but `todo` have had their chunk. */
  function Advanced<H>(chunks: map<ReqId, Chunk<H>>, wanted: set<ReqId>, was: map<ReqId, Span>, todo: set<ReqId>)
    : map<ReqId, Span>
  {
    map id | id in was.Keys + (wanted * chunks.Keys - todo) ::
      if id in wanted && id in chunks && id !in todo then NextSpan(was, id, chunks[id]) else was[id]
  }

  /** Those done are exactly the wanted ones, outside `todo`, whose chunk reached the end of their prompt. */
  ghost predicate Finished<H>(chunks: map<ReqId, Chunk<H>>, wanted: set<ReqId>, todo: set<ReqId>, done: set<ReqId>) {
    forall id :: id in done <==> id in wanted && id !in todo && id in chunks && Last(chunks[id])
  }

  lemma StepStart<H, R>(gather: (H, int) -> R, chunks: map<ReqId, Chunk<H>>, wanted: set<ReqId>,
                        prompts: map<ReqId, Prompt<H>>, spans: map<ReqId, Span>, table: map<ReqId, seq<Option<R>>>)
    requires Tracks(gather, wanted, prompts, spans, table)
    ensures prompts.Keys == wanted
    ensures spans == Advanced(chunks, wanted, spans, wanted) && Finished(chunks, wanted, wanted, {})
  {}

  lemma NextId<H>(chunks: map<ReqId, Chunk<H>>, wanted: set<ReqId>, prompts: map<ReqId, Prompt<H>>,
                  was: map<ReqId, Span>, todo: set<ReqId>, id: ReqId, done: set<ReqId>)
    requires prompts.Keys == wanted && AllContinue(chunks, wanted, prompts, was)
    requires id in todo && todo <= wanted && Finished(chunks, wanted, todo, done)
    ensures var now, next := Advanced(chunks, wanted, was, todo), Advanced(chunks, wanted, was, todo - {id});
            if id in chunks then
              && Continues(chunks[id], prompts[id], now, id) && next == now[id := NextSpan(now, id, chunks[id])]
              && Finished(chunks, wanted, todo - {id}, if Last(chunks[id]) then done + {id} else done)
            else next == now && Finished(chunks, wanted, todo - {id}, done)
  {
    hide Cuts, Last;
  }

  /** Rows from the first position to the end of the prompt are all rows; from a later one they are not. */
  lemma CompleteFromStart<H, R>(gather: (H, int) -> R, rows: seq<Option<R>>, p: Prompt<H>, span: Span)
    requires Holds(gather, rows, p, span) && span.done >= |p.tokens|
    ensures Complete(gather, rows, p) <==> span.first == 0 || |p.tokens| == 1
  {
    if span.first > 0 && |p.tokens| > 1 {
      assert rows[0] == None;
    }
  }

  lemma FinishedHolds<H, R>(gather: (H, int) -> R, chunks: map<ReqId, Chunk<H>>, wanted: set<ReqId>,
                            prompts: map<ReqId, Prompt<H>>, was: map<ReqId, Span>, table: map<ReqId, seq<Option<R>>>,
                            done: set<ReqId>, id: ReqId)
    requires prompts.Keys == wanted && AllContinue(chunks, wanted, prompts, was)
    requires Tracks(gather, wanted, prompts, Advanced(chunks, wanted, was, {}), table)
    requires Finished(chunks, wanted, {}, done) && id in done && id in table
    ensures id in prompts && id in chunks && Holds(gather, table[id], prompts[id], NextSpan(was, id, chunks[id]))
    ensures chunks[id].start + chunks[id].count >= |prompts[id].tokens|
    ensures Complete(gather, table[id], prompts[id])
            <==> NextSpan(was, id, chunks[id]).first == 0 || |prompts[id].tokens| == 1
  {
    hide Holds, Complete;
    assert Advanced(chunks, wanted, was, {})[id] == NextSpan(was, id, chunks[id]);
    CompleteFromStart(gather, table[id], prompts[id], NextSpan(was, id, chunks[id]));
  }

  lemma SeparateLess<R>(inProgress: map<ReqId, array<Option<R>>>, gone: set<ReqId>)
    requires Separate(inProgress)
    ensures Separate(inProgress - gone)
  {}

  /** The positions covered by the first k chunks. */
  function Covered(sizes: seq<nat>, k: nat): nat
    requires k <= |sizes|
  {
    if k == 0 then 0 else Covered(sizes, k - 1) + sizes[k - 1]
  }

  /** The chunk of `count` tokens from `start` on, with the hidden states of its prompt positions. */
  function Cut<H>(p: Prompt<H>, start: nat, count: nat, zero: H): (c: Chunk<H>)
    requires |p.hidden| == |p.tokens| && start < |p.tokens| && count >= 1
    ensures Cuts(c, p) && c.tokens == p.tokens && c.start == start && c.count == count
  {
    var end := Min(start + count, |p.tokens|);
    Chunk(p.tokens, start, count, p.hidden[start..end] + seq(count - (end - start), _ => zero))
  }

  lemma OneChunk<H>(id: ReqId, c: Chunk<H>, wanted: set<ReqId>, prompts: map<ReqId, Prompt<H>>,
                    spans: map<ReqId, Span>)
    requires id in wanted && id in prompts && Continues(c, prompts[id], spans, id)
    ensures AllContinue(map[id := c], wanted, prompts, spans)
  {}

  lemma OneFinished<H>(id: ReqId, c: Chunk<H>, wanted: set<ReqId>, done: set<ReqId>)
    requires id in wanted && Finished(map[id := c], wanted, {}, done)
    ensures id in done <==> Last(c)
  {}

  /** The spans of the requests in the step: what is left out has none. */
  function Kept<H>(spans: map<ReqId, Span>, chunks: map<ReqId, Chunk<H>>): map<ReqId, Span> {
    map id | id in spans && id in chunks :: spans[id]
  }

  lemma KeptIs<H>(spans: map<ReqId, Span>, chunks: map<ReqId, Chunk<H>>)
    ensures spans - (spans.Keys - chunks.Keys) == Kept(spans, chunks)
  {}

  lemma KeptContinue<H>(chunks: map<ReqId, Chunk<H>>, wanted: set<ReqId>, prompts: map<ReqId, Prompt<H>>,
                        spans: map<ReqId, Span>)
    requires AllContinue(chunks, wanted, prompts, spans)
    ensures AllContinue(chunks, wanted, prompts, Kept(spans, chunks))
  {
    hide Cuts;
  }

  /** The rows handed out are the ones being filled. */
  ghost predicate Handed<R>(result: map<ReqId, array<Option<R>>>, inProgress: map<ReqId, array<Option<R>>>) {
    forall id | id in result :: id in inProgress && result[id] == inProgress[id]
  }

  lemma HandedNext<R>(result: map<ReqId, array<Option<R>>>, inProgress: map<ReqId, array<Option<R>>>, id: ReqId,
                      rows: array<Option<R>>)
    requires Handed(result, inProgress) && (id in inProgress ==> rows == inProgress[id])
    ensures Handed(result, inProgress[id := rows]) && Handed(result[id := rows], inProgress[id := rows])
    ensures result[id := rows].Keys == result.Keys + {id}
  {}

  // ---- runs ----

  /** A request that was in the step before goes on where it got to; any other may start anywhere. */
  ghost predicate LegalAt<H>(steps: seq<map<ReqId, Chunk<H>>>, k: nat, id: ReqId, p: Prompt<H>)
    requires k < |steps| && id in steps[k]
  {
    && Cuts(steps[k][id], p)
    && (k > 0 && id in steps[k - 1] ==> steps[k][id].start == steps[k - 1][id].start + steps[k - 1][id].count)
  }

  ghost predicate LegalRun<H>(steps: seq<map<ReqId, Chunk<H>>>, wanted: set<ReqId>, prompts: map<ReqId, Prompt<H>>) {
    && wanted <= prompts.Keys
    && forall k: nat, id | k < |steps| && id in wanted && id in steps[k] :: LegalAt(steps, k, id, prompts[id])
  }

  /** Where the request's chunks start, in the unbroken row of steps that ends with step k. */
  function Streak<H>(steps: seq<map<ReqId, Chunk<H>>>, k: nat, id: ReqId): nat
    requires k < |steps| && id in steps[k]
  {
    if k > 0 && id in steps[k - 1] then Streak(steps, k - 1, id) else steps[k][id].start
  }

  /** That row of steps: the request is in all of them, and not in the step before. */
  lemma {:induction false} StreakIs<H>(steps: seq<map<ReqId, Chunk<H>>>, k: nat, id: ReqId) returns (first: nat)
    requires k < |steps| && id in steps[k]
    ensures first <= k && (forall j | first <= j <= k :: id in steps[j]) && (first == 0 || id !in steps[first - 1])
    ensures Streak(steps, k, id) == steps[first][id].start
  {
    if k > 0 && id in steps[k - 1] {
      first := StreakIs(steps, k - 1, id);
    } else {
      first := k;
    }
  }

  /** The positions that the first chunks cover are their running sums. */
  lemma {:induction false} CoveredIs(sizes: seq<nat>, sums: seq<nat>, k: nat)
    requires |sums| == |sizes| + 1 && sums[0] == 0 && k <= |sizes|
    requires forall i | 0 <= i < |sizes| :: sums[i + 1] == sums[i] + sizes[i]
    ensures Covered(sizes, k) == sums[k]
  {
    if k > 0 {
      CoveredIs(sizes, sums, k - 1);
    }
  }

  /** The spans after k steps: a request has rows if the last of them had it. */
  function SpansAfter<H>(steps: seq<map<ReqId, Chunk<H>>>, k: nat, wanted: set<ReqId>): map<ReqId, Span>
    requires k <= |steps|
  {
    if k == 0 then map[]
    else
      map id | id in wanted && id in steps[k - 1] ::
        Span(Streak(steps, k - 1, id), steps[k - 1][id].start + steps[k - 1][id].count)
  }

  lemma RunStep<H>(steps: seq<map<ReqId, Chunk<H>>>, k: nat, wanted: set<ReqId>, prompts: map<ReqId, Prompt<H>>)
    requires k < |steps| && LegalRun(steps, wanted, prompts)
    ensures var spans := SpansAfter(steps, k, wanted);
            && AllContinue(steps[k], wanted, prompts, spans)
            && Advanced(steps[k], wanted, Kept(spans, steps[k]), {}) == SpansAfter(steps, k + 1, wanted)
            && forall id | id in wanted && id in steps[k] ::
                 NextSpan(Kept(spans, steps[k]), id, steps[k][id]).first == Streak(steps, k, id)
  {
    hide Cuts;
    forall id | id in wanted && id in steps[k]
      ensures Continues(steps[k][id], prompts[id], SpansAfter(steps, k, wanted), id)
    {
      assert LegalAt(steps, k, id, prompts[id]);
    }
  }

  lemma LessLegal<H>(steps: seq<map<ReqId, Chunk<H>>>, wanted: set<ReqId>, prompts: map<ReqId, Prompt<H>>,
                     gone: set<ReqId>)
    requires LegalRun(steps, wanted, prompts)
    ensures LegalRun(steps, wanted - gone, prompts - gone)
  {
    hide LegalAt;
  }

  lemma LessSpans<H>(steps: seq<map<ReqId, Chunk<H>>>, k: nat, wanted: set<ReqId>, gone: set<ReqId>)
    requires k <= |steps|
    ensures SpansAfter(steps, k, wanted) - gone == SpansAfter(steps, k, wanted - gone)
  {}

  /** Step k is the first to bring the request to the end of its prompt. */
  ghost predicate FirstLast<H>(steps: seq<map<ReqId, Chunk<H>>>, k: nat, id: ReqId) {
    && k < |steps| && id in steps[k] && Last(steps[k][id])
    && forall j | 0 <= j < k && id in steps[j] :: !Last(steps[j][id])
  }

  lemma FinishedWanted<H>(chunks: map<ReqId, Chunk<H>>, wanted: set<ReqId>, done: set<ReqId>)
    requires Finished(chunks, wanted, {}, done)
    ensures done <= wanted && done <= chunks.Keys
  {}

  /** Which requests the first k steps hand out, and which step does; the others are still wanted. */
  ghost predicate Booked<H>(steps: seq<map<ReqId, Chunk<H>>>, k: nat, all: set<ReqId>, wanted: set<ReqId>,
                            at: map<ReqId, nat>) {
    && k <= |steps| && at.Keys <= all && wanted == all - at.Keys
    && (forall id | id in at :: at[id] < k && FirstLast(steps, at[id], id))
    && (forall id, j | id in wanted && 0 <= j < k && id in steps[j] :: !Last(steps[j][id]))
  }

  lemma BookNext<H>(steps: seq<map<ReqId, Chunk<H>>>, k: nat, all: set<ReqId>, wanted: set<ReqId>, at: map<ReqId, nat>,
                    done: set<ReqId>)
    requires k < |steps| && Booked(steps, k, all, wanted, at) && Finished(steps[k], wanted, {}, done)
    ensures Booked(steps, k + 1, all, wanted - done, at + map id | id in done :: k)
  {
    hide Last;
  }

  /** Rows that are handed out belong to nobody else. */
  lemma Apart<R>(inProgress: map<ReqId, array<Option<R>>>, result: map<ReqId, array<Option<R>>>)
    requires Separate(inProgress) && Handed(result, inProgress)
    ensures forall id | id in result :: result[id] !in (inProgress - result.Keys).Values
  {}

  class Collector<H, R> {
    const gather: (H, int) -> R
    const zero: H
    const batch: nat

    var wanted: set<ReqId>
    var inProgress: map<ReqId, array<Option<R>>>
    ghost var prompts: map<ReqId, Prompt<H>>
    ghost var spans: map<ReqId, Span>

    ghost function Table(): (m: map<ReqId, seq<Option<R>>>)
      reads this, inProgress.Values
      ensures m.Keys == inProgress.Keys
    {
      map id | id in inProgress :: inProgress[id][..]
    }

    /** Requests that want rows, and the rows they have. */
    ghost predicate Valid()
      reads this, inProgress.Values
    {
      batch > 0 && Separate(inProgress) && Tracks(gather, wanted, prompts, spans, Table())
    }

    constructor (gather: (H, int) -> R, zero: H, batch: nat)
      requires batch > 0
      ensures Valid() && wanted == {} && inProgress == map[] && this.gather == gather
    {
      this.gather, this.zero, this.batch := gather, zero, batch;
      wanted, inProgress, prompts, spans := {}, map[], map[], map[];
    }

    lemma TableIs(m: map<ReqId, seq<Option<R>>>)
      requires m.Keys == inProgress.Keys && forall id | id in m :: inProgress[id][..] == m[id]
      ensures Table() == m
    {}

    /** A new request asks for its rows. */
    method Want(id: ReqId, ghost prompt: Prompt<H>)
      requires Valid() && id !in wanted && |prompt.tokens| >= 1 && |prompt.hidden| == |prompt.tokens|
      modifies `wanted, `prompts
      ensures Valid() && wanted == old(wanted) + {id} && prompts == old(prompts)[id := prompt]
    {
      hide Holds;
      wanted, prompts := wanted + {id}, prompts[id := prompt];
    }

    /** Leaving the batch costs a request its rows, though it goes on wanting them. */
    method Drop(id: ReqId)
      requires Valid()
      modifies `inProgress, `spans
      ensures Valid() && inProgress == old(inProgress) - {id} && spans == old(spans) - {id}
    {
      hide Tracks, Separate;
      TracksDropped(gather, wanted, prompts, spans, Table(), {id});
      SeparateLess(inProgress, {id});
      ghost var table := Table() - {id};
      inProgress, spans := inProgress - {id}, spans - {id};
      TableIs(table);
    }

    /** A finished request wants nothing any more. */
    method Finish(id: ReqId)
      requires Valid()
      modifies this
      ensures Valid() && wanted == old(wanted) - {id} && prompts == old(prompts) - {id}
      ensures inProgress == old(inProgress) - {id} && spans == old(spans) - {id}
    {
      hide Tracks, Separate;
      TracksLess(gather, wanted, prompts, spans, Table(), {id});
      SeparateLess(inProgress, {id});
      ghost var table := Table() - {id};
      wanted, prompts := wanted - {id}, prompts - {id};
      inProgress, spans := inProgress - {id}, spans - {id};
      TableIs(table);
    }

    /** Rows start .. start + n - 1, in batches of the compiled size, padded with zeros; no row is written twice. */
    method FillRows(rows: array<Option<R>>, c: Chunk<H>, n: nat)
      requires batch > 0 && rows.Length + 1 == |c.tokens| && c.start + n <= rows.Length && n <= |c.hidden|
      requires forall j | c.start <= j < c.start + n :: rows[j] == None
      modifies rows
      ensures rows[..] == Filled(gather, old(rows[..]), c, n)
    {
      var targets := c.tokens[c.start + 1..c.start + 1 + n];
      var from := 0;
      while from < n
        invariant 0 <= from
        invariant forall j | 0 <= j < rows.Length ::
                    rows[j] == if c.start <= j < c.start + Min(from, n)
                      then Some(gather(c.hidden[j - c.start], c.tokens[j + 1]))
                               else old(rows[j])
      {
        var to := Min(from + batch, n);
        var size := to - from;
        var gathered := GatherBatch(gather, zero, batch, c.hidden[from..to], targets[from..to]);
        forall i | 0 <= i < size {
          rows[c.start + from + i] := Some(gathered[i]);
        }
        from := from + batch;
      }
    }

    /** The rows of a request, blank ones if it has none yet. */
    method RowsFor(id: ReqId, promptLen: nat) returns (rows: array<Option<R>>)
      requires promptLen >= 1 && Separate(inProgress)
      modifies `inProgress
      ensures inProgress == old(inProgress)[id := rows] && Separate(inProgress)
      ensures if id in old(inProgress) then rows == old(inProgress)[id]
              else fresh(rows) && rows[..] == Blank(promptLen - 1)
    {
      if id in inProgress {
        rows := inProgress[id];
        assert inProgress[id := rows] == inProgress;
      } else {
        rows := new Option<R>[promptLen - 1](_ => None);
        SeparateNew(inProgress, id, rows);
        inProgress := inProgress[id := rows];
      }
    }

    /** One request's chunk; it is the last one exactly when it reaches the end of the prompt. */
    method Advance(id: ReqId, c: Chunk<H>) returns (last: bool, rows: array<Option<R>>)
      requires Valid() && id in wanted && id in prompts && Continues(c, prompts[id], spans, id)
      modifies `inProgress, `spans, inProgress.Values
      ensures Valid() && fresh(inProgress.Values - old(inProgress.Values))
      ensures inProgress == old(inProgress)[id := rows]
      ensures id in old(inProgress) ==> rows == old(inProgress)[id]
      ensures spans == old(spans)[id := NextSpan(old(spans), id, c)]
      ensures last <==> Last(c)
    {
      hide Tracks, Holds, Continues, Filled, NextSpan;
      ghost var table := Table();
      ChunkFills(gather, wanted, prompts, spans, table, id, c);
      rows := RowsFor(id, |c.tokens|);
      assert rows[..] == Before(table, id, c);
      var remaining := |c.tokens| - (c.start + 1);
      last := c.count > remaining;
      var n := if last then remaining else c.count;
      if n > 0 {
        FillRows(rows, c, n);
      }
      spans := spans[id := NextSpan(spans, id, c)];
      TracksNext(gather, wanted, prompts, old(spans), table, id, rows[..], NextSpan(old(spans), id, c));
      TableIs(table[id := rows[..]]);
    }

    /** The rows of one request handed out: those of its span, which are all of them exactly when it starts at 0. */
    ghost predicate HandedOutAt(chunks: map<ReqId, Chunk<H>>, was: map<ReqId, Span>, prompts: map<ReqId, Prompt<H>>,
                                id: ReqId, rows: seq<Option<R>>)
    {
      && id in prompts && id in chunks && Holds(gather, rows, prompts[id], NextSpan(was, id, chunks[id]))
      && chunks[id].start + chunks[id].count >= |prompts[id].tokens|
      && (Complete(gather, rows, prompts[id])
          <==> NextSpan(was, id, chunks[id]).first == 0 || |prompts[id].tokens| == 1)
    }

    ghost predicate HandedOut(chunks: map<ReqId, Chunk<H>>, was: map<ReqId, Span>, prompts: map<ReqId, Prompt<H>>,
                              result: map<ReqId, array<Option<R>>>)
      reads result.Values
    {
      forall id | id in result :: HandedOutAt(chunks, was, prompts, id, result[id][..])
    }

    /** Hand out the finished requests, and forget them. */
    method Conclude(chunks: map<ReqId, Chunk<H>>, ghost was: map<ReqId, Span>, result: map<ReqId, array<Option<R>>>)
      requires Valid() && prompts.Keys == wanted && AllContinue(chunks, wanted, prompts, was)
      requires spans == Advanced(chunks, wanted, was, {}) && Finished(chunks, wanted, {}, result.Keys)
      requires Handed(result, inProgress)
      modifies this
      ensures Valid() && wanted == old(wanted) - result.Keys && inProgress == old(inProgress) - result.Keys
      ensures prompts == old(prompts) - result.Keys && spans == old(spans) - result.Keys
      ensures HandedOut(chunks, was, old(prompts), result)
      ensures forall id | id in result :: result[id] !in inProgress.Values
    {
      hide Holds, Complete, Tracks, Separate, Continues, Finished, AllContinue, Advanced;
      forall id | id in result ensures HandedOutAt(chunks, was, prompts, id, result[id][..]) {
        assert Table()[id] == result[id][..];
        FinishedHolds(gather, chunks, wanted, prompts, was, Table(), result.Keys, id);
      }
      TracksLess(gather, wanted, prompts, spans, Table(), result.Keys);
      SeparateLess(inProgress, result.Keys);
      Apart(inProgress, result);
      ghost var table := Table() - result.Keys;
      wanted, inProgress := wanted - result.Keys, inProgress - result.Keys;
      prompts, spans := prompts - result.Keys, spans - result.Keys;
      TableIs(table);
    }

    /** All but the requests in `todo` have had their chunk, and the finished ones are in the result. */
    ghost predicate Stepping(chunks: map<ReqId, Chunk<H>>, was: map<ReqId, Span>, todo: set<ReqId>,
                             result: map<ReqId, array<Option<R>>>)
      reads this, inProgress.Values
    {
      && Valid() && prompts.Keys == wanted && todo <= wanted && AllContinue(chunks, wanted, prompts, was)
      && spans == Advanced(chunks, wanted, was, todo) && Finished(chunks, wanted, todo, result.Keys)
      && Handed(result, inProgress)
    }

    lemma ValidParts()
      requires Valid()
      ensures batch > 0 && prompts.Keys == wanted && spans.Keys == inProgress.Keys <= wanted
    {}

    method StepOne(chunks: map<ReqId, Chunk<H>>, ghost was: map<ReqId, Span>, ghost todo: set<ReqId>, id: ReqId,
                   result: map<ReqId, array<Option<R>>>)
      returns (result': map<ReqId, array<Option<R>>>)
      requires Stepping(chunks, was, todo, result) && id in todo
      modifies `inProgress, `spans, inProgress.Values
      ensures Stepping(chunks, was, todo - {id}, result')
      ensures fresh(inProgress.Values - old(inProgress.Values))
    {
      hide Tracks, Holds, Continues, Separate, Finished, Advanced, AllContinue, Last, Valid;
      hide Handed;
      ValidParts();
      NextId(chunks, wanted, prompts, was, todo, id, result.Keys);
      result' := result;
      if id in chunks {
        var last, rows := Advance(id, chunks[id]);
        HandedNext(result, old(inProgress), id, rows);
        if last {
          result' := result[id := rows];
        }
      }
    }

    lemma BeginStep(chunks: map<ReqId, Chunk<H>>, result: map<ReqId, array<Option<R>>>)
      requires Valid() && AllContinue(chunks, wanted, prompts, spans) && result == map[]
      ensures Stepping(chunks, spans, wanted, result)
    {
      hide Holds, Separate, AllContinue;
      assert result.Keys == {};
      StepStart(gather, chunks, wanted, prompts, spans, Table());
    }

    lemma EndStep(chunks: map<ReqId, Chunk<H>>, was: map<ReqId, Span>, result: map<ReqId, array<Option<R>>>)
      requires Stepping(chunks, was, {}, result)
      ensures Valid() && prompts.Keys == wanted && AllContinue(chunks, wanted, prompts, was)
      ensures spans == Advanced(chunks, wanted, was, {}) && Finished(chunks, wanted, {}, result.Keys)
      ensures Handed(result, inProgress)
    {
      hide Tracks, Holds, Continues, Separate, Finished, Advanced, AllContinue;
    }

    /** The requests a step does not schedule leave the batch. */
    method LeaveOut(chunks: map<ReqId, Chunk<H>>)
      requires Valid()
      modifies `inProgress, `spans
      ensures Valid() && spans == Kept(old(spans), chunks) && inProgress.Values <= old(inProgress.Values)
    {
      hide Valid, Kept;
      ValidParts();
      var todo := inProgress.Keys - chunks.Keys;
      ghost var all, was := todo, spans;
      DropNone(was, all);
      while todo != {}
        invariant Valid() && todo <= all && inProgress.Values <= old(inProgress.Values)
        invariant spans == was - (all - todo)
        decreases |todo|
      {
        var id :| id in todo;
        Drop(id);
        DropOneMore(was, all, todo, id);
        todo := todo - {id};
      }
      DropNone(was, all);
      KeptIs(was, chunks);
    }

    /** One step. A request it leaves out loses its rows; every other wanted one advances by its chunk.
        Exactly those whose chunk reaches the end of their prompt are handed out, and they are not wanted
        any more; their rows are complete exactly when they start at 0. */
    method Step(chunks: map<ReqId, Chunk<H>>) returns (result: map<ReqId, array<Option<R>>>)
      requires Valid() && AllContinue(chunks, wanted, prompts, spans)
      modifies this, inProgress.Values
      ensures Valid() && wanted == old(wanted) - result.Keys && prompts == old(prompts) - result.Keys
      ensures Finished(chunks, old(wanted), {}, result.Keys)
      ensures HandedOut(chunks, Kept(old(spans), chunks), old(prompts), result)
      ensures spans == Advanced(chunks, old(wanted), Kept(old(spans), chunks), {}) - result.Keys
      ensures fresh(inProgress.Values - old(inProgress.Values))
      ensures forall id | id in result :: result[id] !in inProgress.Values
      ensures forall id | id in result :: fresh(result[id]) || result[id] in old(inProgress.Values)
    {
      hide Complete, Finished, Advanced, AllContinue, Valid, Stepping, Kept, HandedOut;
      result := map[];
      KeptContinue(chunks, wanted, prompts, spans);
      LeaveOut(chunks);
      var todo := wanted;
      ghost var was := spans;
      BeginStep(chunks, result);
      while todo != {}
        invariant Stepping(chunks, was, todo, result) && wanted == old(wanted) && prompts == old(prompts)
        invariant fresh(inProgress.Values - old(inProgress.Values))
        decreases |todo|
      {
        var id :| id in todo;
        label Before:
        result := StepOne(chunks, was, todo, id, result);
        forall o | o in inProgress.Values && o !in old(inProgress.Values) && o !in old@Before(inProgress.Values)
          ensures fresh(o)
        {
          assert fresh@Before(o);
        }
        todo := todo - {id};
      }
      EndStep(chunks, was, result);
      forall id | id in result ensures fresh(result[id]) || result[id] in old(inProgress.Values) {
        assert result[id] in inProgress.Values;
      }
      Conclude(chunks, was, result);
    }

    /** Rows handed out by step k reach from where the unbroken row of steps starts to the end of the prompt; they
        are complete exactly when the request was in every step since the one that started its prompt. */
    ghost predicate WholeFrom(steps: seq<map<ReqId, Chunk<H>>>, k: nat, id: ReqId, rows: seq<Option<R>>, p: Prompt<H>)
    {
      && k < |steps| && id in steps[k] && |p.hidden| == |p.tokens| == |rows| + 1
      && steps[k][id].start + steps[k][id].count >= |p.tokens|
      && (forall j | 0 <= j < |rows| ::
            rows[j] == if j >= Streak(steps, k, id) then Some(gather(p.hidden[j], p.tokens[j + 1])) else None)
      && (Complete(gather, rows, p) <==> Streak(steps, k, id) == 0 || |p.tokens| == 1)
    }

    ghost predicate AllWhole(steps: seq<map<ReqId, Chunk<H>>>, at: map<ReqId, nat>,
                             handed: map<ReqId, array<Option<R>>>, ps: map<ReqId, Prompt<H>>)
      reads handed.Values
    {
      && handed.Keys == at.Keys <= ps.Keys
      && forall id | id in handed :: WholeFrom(steps, at[id], id, handed[id][..], ps[id])
    }

    /** The state after k steps of a run, with the rows handed out so far and the steps that did. */
    ghost predicate Running(steps: seq<map<ReqId, Chunk<H>>>, k: nat, all: set<ReqId>, ps: map<ReqId, Prompt<H>>,
                            handed: map<ReqId, array<Option<R>>>, at: map<ReqId, nat>)
      reads this, inProgress.Values, handed.Values
    {
      && Valid() && Booked(steps, k, all, wanted, at) && prompts == ps - at.Keys && all <= ps.Keys
      && LegalRun(steps, wanted, prompts) && spans == SpansAfter(steps, k, wanted)
      && AllWhole(steps, at, handed, ps) && handed.Values !! inProgress.Values
    }

    lemma RowsWholeAt(steps: seq<map<ReqId, Chunk<H>>>, k: nat, was: map<ReqId, Span>, ps: map<ReqId, Prompt<H>>,
                      id: ReqId, rows: seq<Option<R>>)
      requires k < |steps| && HandedOutAt(steps[k], was, ps, id, rows)
      requires NextSpan(was, id, steps[k][id]).first == Streak(steps, k, id)
      ensures WholeFrom(steps, k, id, rows, ps[id])
    {
      hide Streak, Complete;
      forall j | 0 <= j < |rows| ensures rows[j] == if j >= Streak(steps, k, id)
          then Some(gather(ps[id].hidden[j], ps[id].tokens[j + 1])) else None {}
    }

    lemma HandedAt(chunks: map<ReqId, Chunk<H>>, was: map<ReqId, Span>, ps: map<ReqId, Prompt<H>>,
                   result: map<ReqId, array<Option<R>>>, id: ReqId)
      requires HandedOut(chunks, was, ps, result) && id in result
      ensures id in ps && id in chunks && HandedOutAt(chunks, was, ps, id, result[id][..])
      ensures Complete(gather, result[id][..], ps[id])
              <==> NextSpan(was, id, chunks[id]).first == 0 || |ps[id].tokens| == 1
    {
      hide Complete;
    }

    lemma RowsWhole(steps: seq<map<ReqId, Chunk<H>>>, k: nat, was: map<ReqId, Span>, ps: map<ReqId, Prompt<H>>,
                    result: map<ReqId, array<Option<R>>>)
      requires k < |steps| && HandedOut(steps[k], was, ps, result)
      requires forall id | id in result && id in steps[k] ::
                 NextSpan(was, id, steps[k][id]).first == Streak(steps, k, id)
      ensures result.Keys <= ps.Keys
      ensures forall id | id in result :: WholeFrom(steps, k, id, result[id][..], ps[id])
    {
      hide HandedOutAt, WholeFrom, Streak, NextSpan, HandedOut;
      forall id | id in result ensures id in ps && WholeFrom(steps, k, id, result[id][..], ps[id]) {
        HandedAt(steps[k], was, ps, result, id);
        RowsWholeAt(steps, k, was, ps, id, result[id][..]);
      }
    }

    lemma MoreWhole(steps: seq<map<ReqId, Chunk<H>>>, k: nat, at: map<ReqId, nat>,
                    handed: map<ReqId, array<Option<R>>>, ps: map<ReqId, Prompt<H>>,
                    result: map<ReqId, array<Option<R>>>)
      requires AllWhole(steps, at, handed, ps) && result.Keys <= ps.Keys - at.Keys
      requires forall id | id in result :: WholeFrom(steps, k, id, result[id][..], ps[id])
      ensures AllWhole(steps, at + map id | id in result.Keys :: k, handed + result, ps)
    {
      hide WholeFrom;
    }

    method RunOne(steps: seq<map<ReqId, Chunk<H>>>, k: nat, ghost all: set<ReqId>, ghost ps: map<ReqId, Prompt<H>>,
                  handed: map<ReqId, array<Option<R>>>, ghost at: map<ReqId, nat>)
      returns (handed': map<ReqId, array<Option<R>>>, ghost at': map<ReqId, nat>)
      requires k < |steps| && Running(steps, k, all, ps, handed, at)
      modifies this, inProgress.Values
      ensures Running(steps, k + 1, all, ps, handed', at')
      ensures fresh(inProgress.Values - old(inProgress.Values))
    {
      hide Valid, Advanced, AllContinue, LegalRun, SpansAfter, Kept, NextSpan, Booked, AllWhole, HandedOut, Finished,
        Streak, WholeFrom;
      ghost var was, before := Kept(spans, steps[k]), prompts;
      RunStep(steps, k, wanted, prompts);
      var result := Step(steps[k]);
      assert AllWhole(steps, at, handed, ps);
      handed' := handed + result;
      at' := at + map id | id in result.Keys :: k;
      BookNext(steps, k, all, old(wanted), at, result.Keys);
      LessLegal(steps, old(wanted), before, result.Keys);
      LessSpans(steps, k + 1, old(wanted), result.Keys);
      FinishedWanted(steps[k], old(wanted), result.Keys);
      RowsWhole(steps, k, was, before, result);
      assert before - result.Keys == ps - at'.Keys;
      MoreWhole(steps, k, at, handed, ps, result);
    }

    lemma RunStart(steps: seq<map<ReqId, Chunk<H>>>, handed: map<ReqId, array<Option<R>>>, at: map<ReqId, nat>)
      requires Valid() && inProgress == map[] && LegalRun(steps, wanted, prompts) && handed == map[] && at == map[]
      ensures Running(steps, 0, wanted, prompts, handed, at) && prompts.Keys == wanted
    {
      hide LegalRun;
      assert wanted - handed.Keys == wanted && prompts - handed.Keys == prompts;
    }

    lemma RunEnd(steps: seq<map<ReqId, Chunk<H>>>, all: set<ReqId>, ps: map<ReqId, Prompt<H>>,
                 handed: map<ReqId, array<Option<R>>>, at: map<ReqId, nat>)
      requires Running(steps, |steps|, all, ps, handed, at)
      ensures Valid() && handed.Keys == at.Keys <= all <= ps.Keys && wanted == all - handed.Keys
      ensures forall id | id in handed :: FirstLast(steps, at[id], id)
      ensures forall id, k | id in wanted && 0 <= k < |steps| && id in steps[k] ::
                steps[k][id].start + steps[k][id].count < |steps[k][id].tokens|
      ensures forall id | id in handed :: WholeFrom(steps, at[id], id, handed[id][..], ps[id])
    {
      hide Streak, FirstLast, WholeFrom;
    }

    /** The rows of one request, entry by entry. */
    lemma RowsSpelled(steps: seq<map<ReqId, Chunk<H>>>, k: nat, id: ReqId, rows: array<Option<R>>, p: Prompt<H>)
      requires WholeFrom(steps, k, id, rows[..], p)
      ensures k < |steps| && id in steps[k] && steps[k][id].start + steps[k][id].count >= |p.tokens|
      ensures |p.hidden| == |p.tokens| == rows.Length + 1
      ensures forall j | 0 <= j < rows.Length ::
                rows[j] == if j < Streak(steps, k, id) then None else Some(gather(p.hidden[j], p.tokens[j + 1]))
    {
      hide Streak, Complete;
      forall j | 0 <= j < rows.Length
        ensures rows[j] == if j < Streak(steps, k, id) then None else Some(gather(p.hidden[j], p.tokens[j + 1]))
      {
        assert rows[j] == rows[..][j];
      }
    }

    /** When a run hands out rows. */
    lemma TimesSpelled(steps: seq<map<ReqId, Chunk<H>>>, at: map<ReqId, nat>)
      requires forall id | id in at :: FirstLast(steps, at[id], id)
      ensures forall id | id in at ::
                && at[id] < |steps| && id in steps[at[id]]
                && (forall j | 0 <= j < at[id] && id in steps[j] ::
                      steps[j][id].start + steps[j][id].count < |steps[j][id].tokens|)
    {}

    /** Over any run, whatever the chunks and whoever is left out of which step: a request that wants rows is handed
        them by the first step that reaches the end of its prompt, and by no other, and they are complete exactly
        when it was in every step since the one that started the prompt. */
    method Run(steps: seq<map<ReqId, Chunk<H>>>)
      returns (handed: map<ReqId, array<Option<R>>>, ghost at: map<ReqId, nat>)
      requires Valid() && inProgress == map[] && LegalRun(steps, wanted, prompts)
      modifies this
      ensures Valid() && handed.Keys == at.Keys <= old(wanted) == old(prompts).Keys
      ensures wanted == old(wanted) - handed.Keys
      ensures forall id | id in handed :: FirstLast(steps, at[id], id)
      ensures forall id, k | id in wanted && 0 <= k < |steps| && id in steps[k] ::
                steps[k][id].start + steps[k][id].count < |steps[k][id].tokens|
      ensures forall id | id in handed ::
                && at[id] < |steps| && id in steps[at[id]]
                && steps[at[id]][id].start + steps[at[id]][id].count >= |old(prompts)[id].tokens|
                && (forall j | 0 <= j < at[id] && id in steps[j] ::
                      steps[j][id].start + steps[j][id].count < |steps[j][id].tokens|)
      ensures forall id | id in handed ::
                && |old(prompts)[id].hidden| == |old(prompts)[id].tokens| == handed[id].Length + 1
                && (forall j | 0 <= j < handed[id].Length ::
                      handed[id][j] == if j < Streak(steps, at[id], id) then None
                        else Some(gather(old(prompts)[id].hidden[j], old(prompts)[id].tokens[j + 1])))
      ensures forall id | id in handed :: WholeFrom(steps, at[id], id, handed[id][..], old(prompts)[id])
    {
      hide Valid, LegalRun, SpansAfter, WholeFrom, FirstLast, Running, Streak, Last;
      handed, at := map[], map[];
      ghost var all, ps := wanted, prompts;
      RunStart(steps, handed, at);
      var k := 0;
      while k < |steps|
        invariant k <= |steps| && Running(steps, k, all, ps, handed, at)
        invariant fresh(inProgress.Values - old(inProgress.Values))
      {
        label Before:
        handed, at := RunOne(steps, k, all, ps, handed, at);
        forall o | o in inProgress.Values && o !in old(inProgress.Values) && o !in old@Before(inProgress.Values)
          ensures fresh(o)
        {
          assert fresh@Before(o);
        }
        k := k + 1;
      }
      RunEnd(steps, all, ps, handed, at);
      TimesSpelled(steps, at);
      forall id | id in handed
        ensures at[id] < |steps| && id in steps[at[id]]
                && steps[at[id]][id].start + steps[at[id]][id].count >= |ps[id].tokens|
                && |ps[id].hidden| == |ps[id].tokens| == handed[id].Length + 1
                && (forall j | 0 <= j < handed[id].Length ::
                      handed[id][j] == if j < Streak(steps, at[id], id) then None
                        else Some(gather(ps[id].hidden[j], ps[id].tokens[j + 1])))
      {
        RowsSpelled(steps, at[id], id, handed[id], ps[id]);
      }
    }

    /** A prompt of two tokens or more, cut in two, with a step in between that leaves the request out: the rows that
        are handed out are not complete. */
    method LosesRows(id: ReqId, prompt: Prompt<H>) returns (rows: array<Option<R>>)
      requires Valid() && inProgress == map[] && wanted == {id} && id in prompts && prompts[id] == prompt
      requires |prompt.tokens| >= 2 && |prompt.hidden| == |prompt.tokens|
      modifies this
      ensures id !in wanted && !Complete(gather, rows[..], prompt)
      ensures rows.Length == |prompt.tokens| - 1 && rows[0] == None
    {
      hide Valid, Cuts;
      var first, second := Cut(prompt, 0, 1, zero), Cut(prompt, 1, |prompt.tokens| - 1, zero);
      var steps := [map[id := first], map[], map[id := second]];
      assert !Last(first) && Last(second);
      assert LegalAt(steps, 0, id, prompt) && LegalAt(steps, 2, id, prompt);
      var handed, at := Run(steps);
      assert id in steps[2] && Last(steps[2][id]) && !Last(steps[0][id]);
      assert id !in wanted;
      assert FirstLast(steps, at[id], id) && at[id] == 2;
      assert Streak(steps, 2, id) == 1;
      rows := handed[id];
    }

    lemma CompleteIs(rows: array<Option<R>>, p: Prompt<H>)
      requires Complete(gather, rows[..], p)
      ensures rows.Length == |p.tokens| - 1 == |p.hidden| - 1
      ensures forall j | 0 <= j < rows.Length :: rows[j] == Some(gather(p.hidden[j], p.tokens[j + 1]))
    {
      forall j | 0 <= j < rows.Length ensures rows[j] == Some(gather(p.hidden[j], p.tokens[j + 1])) {
        assert rows[j] == rows[..][j];
      }
    }

    /** One request's prompt, split in any way into chunks that are scheduled one after the other:
        its rows are handed out, complete, in the chunk that reaches the end of the prompt, and not
        before. */
    method Prefill(id: ReqId, prompt: Prompt<H>, sizes: seq<nat>) returns (rows: array<Option<R>>, k: nat)
      requires Valid() && id in wanted && id in prompts && prompts[id] == prompt && id !in spans
      requires |prompt.tokens| >= 1 && |prompt.hidden| == |prompt.tokens|
      requires (forall i | 0 <= i < |sizes| :: sizes[i] >= 1) && Covered(sizes, |sizes|) >= |prompt.tokens|
      modifies this, inProgress.Values
      ensures Valid() && id !in wanted && Complete(gather, rows[..], prompt)
      ensures rows.Length == |prompt.tokens| - 1
      ensures forall j | 0 <= j < rows.Length :: rows[j] == Some(gather(prompt.hidden[j], prompt.tokens[j + 1]))
      ensures k < |sizes| && Covered(sizes, k) < |prompt.tokens| <= Covered(sizes, k + 1)
    {
      hide Valid, Complete, Cuts, Finished, AllContinue, HandedOut, Holds;
      k := 0;
      while true
        invariant k < |sizes| && Covered(sizes, k) < |prompt.tokens|
        invariant Valid() && id in wanted && id in prompts && prompts[id] == prompt
        invariant if k == 0 then id !in spans else id in spans && spans[id] == Span(0, Covered(sizes, k))
        invariant fresh(inProgress.Values - old(inProgress.Values))
        decreases |sizes| - k
      {
        ghost var was := Kept(spans, map[id := Cut(prompt, Covered(sizes, k), sizes[k], zero)]);
        var c := Cut(prompt, Covered(sizes, k), sizes[k], zero);
        OneChunk(id, c, wanted, prompts, spans);
        label Before:
        var result := Step(map[id := c]);
        forall o | o in inProgress.Values && o !in old(inProgress.Values) && o !in old@Before(inProgress.Values)
          ensures fresh(o)
        {
          assert fresh@Before(o);
        }
        OneFinished(id, c, old@Before(wanted), result.Keys);
        if id in result {
          rows := result[id];
          HandedAt(map[id := c], was, old@Before(prompts), result, id);
          CompleteIs(rows, prompt);
          return;
        }
        k := k + 1;
      }
    }
  }
}
