/** Weighting the experts: the per-expert loop, the dense sum and the gathered top-k sum. */
module MoeRouting {
  import opened Experts

  // ---- one token: its choices, its full row of scores ----

  /** Choices are expert numbers, or `experts` for a masked slot; real choices are distinct, and only
      they carry a score. */
  ghost predicate Routing(ids: seq<int>, scores: Vec, experts: nat) {
    && |scores| == experts
    && (forall k :: 0 <= k < |ids| ==> 0 <= ids[k] <= experts)
    && (forall j, k :: 0 <= j < k < |ids| && ids[j] < experts ==> ids[j] != ids[k])
    && forall e :: 0 <= e < experts && e !in ids ==> scores[e] == 0.0
  }

  /** `zeros.scatter_(0, ids, weights)`. */
  function ScatterScores(ids: seq<int>, weights: Vec, experts: nat): (scores: Vec)
    requires |ids| == |weights| && forall k :: 0 <= k < |ids| ==> 0 <= ids[k] < experts
    ensures |scores| == experts
    ensures forall e :: 0 <= e < experts && e !in ids ==> scores[e] == 0.0
  {
    if ids == [] then Zeros(experts)
    else
      var last := |ids| - 1;
      ScatterScores(ids[..last], weights[..last], experts)[ids[last] := weights[last]]
  }

  /** The router's full score row: each distinct choice keeps its own weight, and nothing else has any. */
  lemma {:induction false} RouterScores(ids: seq<int>, weights: Vec, experts: nat)
    requires |ids| == |weights| && forall k :: 0 <= k < |ids| ==> 0 <= ids[k] < experts
    requires forall j, k :: 0 <= j < k < |ids| ==> ids[j] != ids[k]
    ensures Routing(ids, ScatterScores(ids, weights, experts), experts)
    ensures forall k :: 0 <= k < |ids| ==> ScatterScores(ids, weights, experts)[ids[k]] == weights[k]
  {
    if ids != [] {
      var last := |ids| - 1;
      RouterScores(ids[..last], weights[..last], experts);
      assert forall k :: 0 <= k < last ==> ids[..last][k] == ids[k];
    }
  }

  predicate Token(bank: Bank, x: Vec, scores: Vec) {
    bank.Valid() && |x| == bank.hidden && |scores| == |bank.gateUp|
  }

  predicate Wide(rows: seq<Vec>, width: nat) {
    forall k :: 0 <= k < |rows| ==> |rows[k]| == width
  }

  /** Every expert's weighted output for one token. */
  function Terms(bank: Bank, x: Vec, scores: Vec): (terms: seq<Vec>)
    requires Token(bank, x, scores)
    ensures |terms| == |scores| && Wide(terms, bank.hidden)
    ensures forall e :: 0 <= e < |terms| ==> terms[e] == Scale(Expert(bank, e, x), scores[e])
  {
    seq(|scores|, e requires 0 <= e < |scores| => Scale(Expert(bank, e, x), scores[e]))
  }

  /** The sum of the first n rows. */
  function SumRows(width: nat, rows: seq<Vec>, n: nat): (r: Vec)
    requires Wide(rows, width) && n <= |rows|
    ensures |r| == width
  {
    if n == 0 then Zeros(width) else Add(SumRows(width, rows, n - 1), rows[n - 1])
  }

  /** The dense form: every expert, weighted by its score, summed over the experts. */
  function Mixture(bank: Bank, x: Vec, scores: Vec): (r: Vec)
    requires Token(bank, x, scores)
    ensures |r| == bank.hidden
  {
    SumRows(bank.hidden, Terms(bank, x, scores), |scores|)
  }

  // ---- the gathered top-k form ----

  /** `einsum("te,tke->tk", scores, one_hot(ids))`, one entry. */
  function OneHotWeight(scores: Vec, id: int, n: nat): real
    requires n <= |scores|
  {
    if n == 0 then 0.0
    else OneHotWeight(scores, id, n - 1) + scores[n - 1] * (if id == n - 1 then 1.0 else 0.0)
  }

  lemma {:induction false} OneHotGathers(scores: Vec, id: int, n: nat)
    requires n <= |scores|
    ensures OneHotWeight(scores, id, n) == if 0 <= id < n then scores[id] else 0.0
  {
    if n > 0 {
      OneHotGathers(scores, id, n - 1);
    }
  }

  /** The weighted sum of the first n fetched rows. */
  function TopKSum(width: nat, rows: seq<Vec>, ids: seq<int>, scores: Vec, n: nat): (r: Vec)
    requires n <= |rows| == |ids| && forall k :: 0 <= k < |rows| ==> |rows[k]| == width
    ensures |r| == width
  {
    if n == 0 then Zeros(width)
    else Add(TopKSum(width, rows, ids, scores, n - 1), Scale(rows[n - 1], OneHotWeight(scores, ids[n - 1], |scores|)))
  }

  // ---- sums of reals ----

  function SumTo(f: nat -> real, n: nat): real {
    if n == 0 then 0.0 else SumTo(f, n - 1) + f(n - 1)
  }

  function Count(ids: seq<int>, e: int): nat {
    if ids == [] then 0 else Count(ids[..|ids| - 1], e) + if ids[|ids| - 1] == e then 1 else 0
  }

  /** The sum over choices of a quantity that depends only on the chosen expert; masked slots add nothing. */
  function SumChosen(f: nat -> real, ids: seq<int>, experts: nat): real
    requires forall k :: 0 <= k < |ids| ==> 0 <= ids[k] <= experts
  {
    if ids == [] then 0.0
    else
      var last := ids[|ids| - 1];
      SumChosen(f, ids[..|ids| - 1], experts) + if last < experts then f(last) else 0.0
  }

  lemma {:induction false} SumToEqual(f: nat -> real, g: nat -> real, n: nat)
    requires forall e: nat | e < n :: f(e) == g(e)
    ensures SumTo(f, n) == SumTo(g, n)
  {
    if n > 0 {
      SumToEqual(f, g, n - 1);
    }
  }

  /** A sum over experts of a single spike. */
  lemma {:induction false} SumToAdd(f: nat -> real, g: nat -> real, spike: int, v: real, n: nat)
    requires forall e: nat | e < n :: g(e) == f(e) + if e == spike then v else 0.0
    ensures SumTo(g, n) == SumTo(f, n) + if 0 <= spike < n then v else 0.0
  {
    if n > 0 {
      SumToAdd(f, g, spike, v, n - 1);
    }
  }

  /** v, added up n times. */
  function Repeated(n: nat, v: real): real {
    if n == 0 then 0.0 else Repeated(n - 1, v) + v
  }

  function Times(f: nat -> real, ids: seq<int>): nat -> real {
    (e: nat) => Repeated(Count(ids, e), f(e))
  }

  lemma {:induction false} ZeroSum(f: nat -> real, n: nat)
    requires forall e: nat | e < n :: f(e) == 0.0
    ensures SumTo(f, n) == 0.0
  {
    if n > 0 {
      ZeroSum(f, n - 1);
    }
  }

  /** Summing over the choices is summing over the experts, each as often as it was chosen. */
  lemma {:induction false} ChosenByExpert(f: nat -> real, ids: seq<int>, experts: nat)
    requires forall k :: 0 <= k < |ids| ==> 0 <= ids[k] <= experts
    ensures SumChosen(f, ids, experts) == SumTo(Times(f, ids), experts)
  {
    if ids == [] {
      forall e: nat | e < experts ensures Times(f, ids)(e) == 0.0 {
        assert Count(ids, e) == 0;
        assert Times(f, ids)(e) == Repeated(Count(ids, e), f(e)) == Repeated(0, f(e));
      }
      ZeroSum(Times(f, ids), experts);
    } else {
      var front, last := ids[..|ids| - 1], ids[|ids| - 1];
      ChosenByExpert(f, front, experts);
      var v := f(last);
      forall e: nat | e < experts
        ensures Times(f, ids)(e) == Times(f, front)(e) + if e == last then v else 0.0
      {
        assert Count(ids, e) == Count(front, e) + if last == e then 1 else 0;
        assert Times(f, ids)(e) == Repeated(Count(ids, e), f(e));
        assert Times(f, front)(e) == Repeated(Count(front, e), f(e));
      }
      SumToAdd(Times(f, front), Times(f, ids), last, v, experts);
    }
  }

  lemma {:induction false} CountDistinct(ids: seq<int>, e: int, experts: nat)
    requires forall j, k :: 0 <= j < k < |ids| && ids[j] < experts ==> ids[j] != ids[k]
    requires e < experts
    ensures Count(ids, e) == if e in ids then 1 else 0
  {
    if ids != [] {
      var front, last := ids[..|ids| - 1], ids[|ids| - 1];
      assert forall k :: 0 <= k < |front| ==> front[k] == ids[k];
      CountDistinct(front, e, experts);
      assert ids == front + [last];
    }
  }

  /** With distinct choices and no score outside them, choosing loses nothing. */
  lemma SelectionIsEnough(f: nat -> real, ids: seq<int>, scores: Vec, experts: nat)
    requires Routing(ids, scores, experts)
    requires forall e: nat | e < experts && scores[e] == 0.0 :: f(e) == 0.0
    ensures SumChosen(f, ids, experts) == SumTo(f, experts)
  {
    ChosenByExpert(f, ids, experts);
    forall e: nat | e < experts ensures Times(f, ids)(e) == f(e) {
      CountDistinct(ids, e, experts);
      assert Repeated(1, f(e)) == Repeated(0, f(e)) + f(e) == f(e);
    }
    SumToEqual(Times(f, ids), f, experts);
  }

  // ---- the three forms, one output coordinate at a time ----

  function Coordinate(terms: seq<Vec>, width: nat, h: nat): nat -> real
    requires Wide(terms, width) && h < width
  {
    (e: nat) => if e < |terms| then terms[e][h] else 0.0
  }

  lemma {:induction false} SumRowsAt(width: nat, terms: seq<Vec>, n: nat, h: nat)
    requires Wide(terms, width) && n <= |terms| && h < width
    ensures SumRows(width, terms, n)[h] == SumTo(Coordinate(terms, width, h), n)
  {
    if n > 0 {
      SumRowsAt(width, terms, n - 1, h);
    }
  }

  /** Experts without a score contribute nothing. */
  ghost predicate Silent(terms: seq<Vec>, scores: Vec) {
    && |terms| == |scores|
    && forall e :: 0 <= e < |scores| && scores[e] == 0.0 ==> terms[e] == Zeros(|terms[e]|)
  }

  lemma TermsSilent(bank: Bank, x: Vec, scores: Vec)
    requires Token(bank, x, scores)
    ensures Silent(Terms(bank, x, scores), scores)
  {
    forall e | 0 <= e < |scores| && scores[e] == 0.0
      ensures Terms(bank, x, scores)[e] == Zeros(bank.hidden)
    {
      ScaleByMask(Expert(bank, e, x));
    }
  }

  lemma {:induction false} TopKSumAt(width: nat, terms: seq<Vec>, scores: Vec, rows: seq<Vec>, ids: seq<int>,
                                     n: nat, h: nat)
    requires Wide(terms, width) && Wide(rows, width) && |terms| == |scores| && |rows| == |ids|
    requires forall k :: 0 <= k < |ids| ==> 0 <= ids[k] < |scores| && terms[ids[k]] == Scale(rows[k], scores[ids[k]])
    requires n <= |ids| && h < width
    ensures TopKSum(width, rows, ids, scores, n)[h] == SumChosen(Coordinate(terms, width, h), ids[..n], |scores|)
  {
    if n > 0 {
      TopKSumAt(width, terms, scores, rows, ids, n - 1, h);
      OneHotGathers(scores, ids[n - 1], |scores|);
      assert ids[..n][..n - 1] == ids[..n - 1];
    }
  }

  /** The rows a combine fetched for one token. */
  ghost predicate FetchedRows(bank: Bank, x: Vec, scores: Vec, rows: seq<Vec>, ids: seq<int>)
    requires Token(bank, x, scores)
  {
    && |rows| == |ids|
    && forall k :: 0 <= k < |ids| ==> 0 <= ids[k] < |scores| && rows[k] == Expert(bank, ids[k], x)
  }

  /** The gathered top-k weighted sum of the fetched rows is the dense sum over all experts. */
  lemma TopKIsMixture(bank: Bank, x: Vec, scores: Vec, rows: seq<Vec>, ids: seq<int>)
    requires Token(bank, x, scores) && Routing(ids, scores, |scores|)
    requires FetchedRows(bank, x, scores, rows, ids)
    ensures TopKSum(bank.hidden, rows, ids, scores, |ids|) == Mixture(bank, x, scores)
  {
    var width, terms := bank.hidden, Terms(bank, x, scores);
    TermsSilent(bank, x, scores);
    forall h | 0 <= h < width
      ensures TopKSum(width, rows, ids, scores, |ids|)[h] == SumRows(width, terms, |scores|)[h]
    {
      TopKSumAt(width, terms, scores, rows, ids, |ids|, h);
      assert ids[..|ids|] == ids;
      SelectionIsEnough(Coordinate(terms, width, h), ids, scores, |scores|);
      SumRowsAt(width, terms, |scores|, h);
    }
  }

  // ---- the per-expert loop ----

  /** What one token has accumulated once experts below e, and the first n choices for e, are done. */
  function Accumulated(width: nat, terms: seq<Vec>, ids: seq<int>, e: nat, n: nat): (r: Vec)
    requires Wide(terms, width) && e <= |terms| && n <= |ids| && (e == |terms| ==> n == 0)
    ensures |r| == width
    decreases e, n
  {
    if n > 0 then
      var before := Accumulated(width, terms, ids, e, n - 1);
      if ids[n - 1] == e then Add(before, terms[e]) else before
    else if e > 0 then Accumulated(width, terms, ids, e - 1, |ids|)
    else Zeros(width)
  }

  lemma {:induction false} UnhitExpert(width: nat, terms: seq<Vec>, ids: seq<int>, e: nat, n: nat)
    requires Wide(terms, width) && e < |terms| && n <= |ids|
    requires forall k :: 0 <= k < n ==> ids[k] != e
    ensures Accumulated(width, terms, ids, e, n) == Accumulated(width, terms, ids, e, 0)
  {
    if n > 0 {
      UnhitExpert(width, terms, ids, e, n - 1);
    }
  }

  lemma {:induction false} AccumulatedAt(width: nat, terms: seq<Vec>, ids: seq<int>, e: nat, n: nat, h: nat)
    requires Wide(terms, width) && e <= |terms| && n <= |ids| && (e == |terms| ==> n == 0) && h < width
    ensures Accumulated(width, terms, ids, e, n)[h]
            == SumTo(Times(Coordinate(terms, width, h), ids), e)
               + (if e < |terms| then Repeated(Count(ids[..n], e), terms[e][h]) else 0.0)
    decreases e, n
  {
    if n > 0 {
      AccumulatedAt(width, terms, ids, e, n - 1, h);
      assert ids[..n][..n - 1] == ids[..n - 1];
    } else if e > 0 {
      AccumulatedAt(width, terms, ids, e - 1, |ids|, h);
      assert ids[..|ids|] == ids;
    }
  }

  /** The per-expert loop accumulates the dense sum. */
  lemma LoopIsMixture(bank: Bank, x: Vec, scores: Vec, ids: seq<int>)
    requires Token(bank, x, scores) && Routing(ids, scores, |scores|)
    ensures Accumulated(bank.hidden, Terms(bank, x, scores), ids, |scores|, 0) == Mixture(bank, x, scores)
  {
    var width, terms := bank.hidden, Terms(bank, x, scores);
    TermsSilent(bank, x, scores);
    forall h | 0 <= h < width
      ensures Accumulated(width, terms, ids, |scores|, 0)[h] == SumRows(width, terms, |scores|)[h]
    {
      var f := Coordinate(terms, width, h);
      AccumulatedAt(width, terms, ids, |scores|, 0, h);
      ChosenByExpert(f, ids, |scores|);
      SelectionIsEnough(f, ids, scores, |scores|);
      SumRowsAt(width, terms, |scores|, h);
    }
  }

  ghost predicate Tokens(bank: Bank, xs: seq<Vec>, ids: seq<seq<int>>, scores: seq<Vec>) {
    && bank.Valid() && |xs| == |ids| == |scores|
    && forall t :: 0 <= t < |xs| ==> Token(bank, xs[t], scores[t]) && Routing(ids[t], scores[t], |bank.gateUp|)
  }

  /** Row t once experts below e, and the first n choices for e, are done. */
  ghost function LoopRow(bank: Bank, xs: seq<Vec>, ids: seq<seq<int>>, scores: seq<Vec>, t: nat, e: nat, n: nat): Vec
    requires Tokens(bank, xs, ids, scores) && t < |xs|
    requires e <= |bank.gateUp| && n <= |ids[t]| && (e == |bank.gateUp| ==> n == 0)
  {
    Accumulated(bank.hidden, Terms(bank, xs[t], scores[t]), ids[t], e, n)
  }

  /** One choice: a token that made it gains the expert's weighted output, any other token keeps its row. */
  lemma LoopStep(bank: Bank, xs: seq<Vec>, ids: seq<seq<int>>, scores: seq<Vec>, t: nat, e: nat, k: nat)
    requires Tokens(bank, xs, ids, scores) && t < |xs| && e < |bank.gateUp| && k < |ids[t]|
    ensures |LoopRow(bank, xs, ids, scores, t, e, k)| == bank.hidden
    ensures LoopRow(bank, xs, ids, scores, t, e, k + 1)
            == if ids[t][k] == e
               then Add(LoopRow(bank, xs, ids, scores, t, e, k), Scale(Expert(bank, e, xs[t]), scores[t][e]))
               else LoopRow(bank, xs, ids, scores, t, e, k)
  {
    hide Expert, Add, Scale;
  }

  /** `index_add_` of expert e's weighted outputs into the rows of the tokens that chose it. */
  method AddExpert(bank: Bank, xs: seq<Vec>, ids: seq<seq<int>>, scores: seq<Vec>, topK: nat, e: nat, rows: array<Vec>)
    requires Tokens(bank, xs, ids, scores) && forall t :: 0 <= t < |ids| ==> |ids[t]| == topK
    requires e < |bank.gateUp| && rows.Length == |xs|
    requires forall t :: 0 <= t < |xs| ==> rows[t] == LoopRow(bank, xs, ids, scores, t, e, 0)
    modifies rows
    ensures forall t :: 0 <= t < |xs| ==> rows[t] == LoopRow(bank, xs, ids, scores, t, e, topK)
  {
    hide LoopRow, Add, Scale, Expert;
    for k := 0 to topK
      invariant forall t :: 0 <= t < |xs| ==> rows[t] == LoopRow(bank, xs, ids, scores, t, e, k)
    {
      for t := 0 to |xs|
        invariant forall t' :: 0 <= t' < |xs| ==>
          rows[t'] == LoopRow(bank, xs, ids, scores, t', e, if t' < t then k + 1 else k)
      {
        LoopStep(bank, xs, ids, scores, t, e, k);
        if ids[t][k] == e {
          rows[t] := Add(rows[t], Scale(Expert(bank, e, xs[t]), scores[t][e]));
        }
      }
    }
  }

  /** The CPU branch of the experts: visit the experts that were hit; the masked slot is skipped. */
  method PerExpertLoop(bank: Bank, xs: seq<Vec>, ids: seq<seq<int>>, scores: seq<Vec>, topK: nat)
    returns (next: seq<Vec>)
    requires Tokens(bank, xs, ids, scores) && forall t :: 0 <= t < |ids| ==> |ids[t]| == topK
    ensures |next| == |xs|
    ensures forall t :: 0 <= t < |xs| ==> next[t] == Mixture(bank, xs[t], scores[t])
  {
    var T, E := |xs|, |bank.gateUp|;
    var rows := new Vec[T](_ => Zeros(bank.hidden));
    for e := 0 to E + 1
      invariant forall t :: 0 <= t < T ==> rows[t] == LoopRow(bank, xs, ids, scores, t, if e <= E then e else E, 0)
    {
      var hit := exists t, k :: 0 <= t < T && 0 <= k < topK && ids[t][k] == e;
      if hit {
        if e == E {
          continue;
        }
        AddExpert(bank, xs, ids, scores, topK, e, rows);
      } else if e < E {
        forall t | 0 <= t < T
          ensures LoopRow(bank, xs, ids, scores, t, e, topK) == LoopRow(bank, xs, ids, scores, t, e, 0)
        {
          UnhitExpert(bank.hidden, Terms(bank, xs[t], scores[t]), ids[t], e, topK);
        }
      }
    }
    next := rows[..];
    forall t | 0 <= t < T ensures next[t] == Mixture(bank, xs[t], scores[t]) {
      LoopIsMixture(bank, xs[t], scores[t], ids[t]);
    }
  }
}
