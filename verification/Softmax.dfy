/** Logits, softmax, sorting and sums: what sampling computes with. */
module Softmax {

  /** A logit: a real number, or minus infinity for a token that cannot be chosen. */
  datatype Logit = NegInf | Fin(value: real)

  type Row = seq<Logit>

  predicate HasFinite(row: Row) {
    exists i :: 0 <= i < |row| && row[i].Fin?
  }

  /** Strictly smaller logit. */
  predicate Below(a: Logit, b: Logit) {
    b.Fin? && (a.Fin? ==> a.value < b.value)
  }

  // ---- sums ----

  function Sum(s: seq<real>): real {
    if s == [] then 0.0 else Sum(s[..|s| - 1]) + s[|s| - 1]
  }

  /** The sum of f over the entries. */
  function SumOf(f: real -> real, s: seq<real>): real {
    if s == [] then 0.0 else SumOf(f, s[..|s| - 1]) + f(s[|s| - 1])
  }

  lemma {:induction false} SumOfConcat(f: real -> real, a: seq<real>, b: seq<real>)
    ensures SumOf(f, a + b) == SumOf(f, a) + SumOf(f, b)
  {
    if b == [] {
      assert a + b == a;
    } else {
      assert (a + b)[..|a + b| - 1] == a + b[..|b| - 1];
      SumOfConcat(f, a, b[..|b| - 1]);
    }
  }

  lemma {:induction false} SumOfId(s: seq<real>)
    ensures SumOf((x: real) => x, s) == Sum(s)
  {
    if s != [] {
      SumOfId(s[..|s| - 1]);
    }
  }

  lemma {:induction false} SumOfBetween(f: real -> real, g: real -> real, s: seq<real>)
    requires forall i | 0 <= i < |s| :: f(s[i]) <= g(s[i])
    ensures SumOf(f, s) <= SumOf(g, s)
  {
    if s != [] {
      SumOfBetween(f, g, s[..|s| - 1]);
    }
  }

  lemma {:induction false} SumScaled(s: seq<real>, t: real, r: seq<real>)
    requires t > 0.0 && |r| == |s| && forall i | 0 <= i < |s| :: r[i] == s[i] / t
    ensures Sum(r) == Sum(s) / t
  {
    if s != [] {
      SumScaled(s[..|s| - 1], t, r[..|r| - 1]);
    }
  }

  lemma {:induction false} SumNotNegative(s: seq<real>)
    requires forall j | 0 <= j < |s| :: s[j] >= 0.0
    ensures Sum(s) >= 0.0
  {
    if s != [] {
      SumNotNegative(s[..|s| - 1]);
    }
  }

  lemma {:induction false} SumPositive(s: seq<real>, i: nat)
    requires i < |s| && s[i] > 0.0 && forall j | 0 <= j < |s| :: s[j] >= 0.0
    ensures Sum(s) > 0.0
  {
    if i == |s| - 1 {
      SumNotNegative(s[..|s| - 1]);
    } else {
      SumPositive(s[..|s| - 1], i);
    }
  }

  // ---- sorting, ascending ----

  ghost predicate Ascending(s: seq<real>) {
    forall i, j | 0 <= i <= j < |s| :: s[i] <= s[j]
  }

  function Insert(s: seq<real>, x: real): (r: seq<real>)
    ensures |r| == |s| + 1
  {
    if s == [] || s[|s| - 1] <= x then s + [x] else Insert(s[..|s| - 1], x) + [s[|s| - 1]]
  }

  lemma {:induction false} InsertSorts(f: real -> real, s: seq<real>, x: real)
    requires Ascending(s)
    ensures Ascending(Insert(s, x)) && SumOf(f, Insert(s, x)) == SumOf(f, s) + f(x)
    ensures forall y | y in Insert(s, x) :: y in s || y == x
  {
    if s != [] && s[|s| - 1] > x {
      var front, last := s[..|s| - 1], s[|s| - 1];
      InsertSorts(f, front, x);
      var r := Insert(front, x);
      assert (r + [last])[..|r + [last]| - 1] == r;
      forall i | 0 <= i < |r| ensures r[i] <= last {
        assert r[i] in r;
      }
    } else {
      assert (s + [x])[..|s + [x]| - 1] == s;
    }
  }

  /** `sort(descending=False)`. */
  function Sorted(s: seq<real>): (r: seq<real>)
    ensures |r| == |s|
  {
    if s == [] then [] else Insert(Sorted(s[..|s| - 1]), s[|s| - 1])
  }

  /** Sorting orders the entries and changes no sum over them. */
  lemma {:induction false} SortedIs(f: real -> real, s: seq<real>)
    ensures Ascending(Sorted(s)) && SumOf(f, Sorted(s)) == SumOf(f, s)
    ensures forall y | y in Sorted(s) :: y in s
  {
    if s != [] {
      SortedIs(f, s[..|s| - 1]);
      InsertSorts(f, Sorted(s[..|s| - 1]), s[|s| - 1]);
    }
  }

  // ---- softmax ----

  /** What exp is to softmax: positive, and larger for a larger logit. */
  ghost predicate Exponential(exp: real -> real) {
    && (forall x: real :: exp(x) > 0.0)
    && (forall x: real, y: real | x < y :: exp(x) < exp(y))
  }

  function Weight(exp: real -> real, l: Logit): real {
    if l.Fin? then exp(l.value) else 0.0
  }

  function Weights(exp: real -> real, row: Row): (r: seq<real>)
    ensures |r| == |row| && forall i | 0 <= i < |r| :: r[i] == Weight(exp, row[i])
  {
    seq(|row|, i requires 0 <= i < |row| => Weight(exp, row[i]))
  }

  /** Weights over their sum: undefined for a row without a finite logit. */
  function Probs(exp: real -> real, row: Row): (r: seq<real>)
    requires Sum(Weights(exp, row)) > 0.0
    ensures |r| == |row| && forall i | 0 <= i < |r| :: r[i] == Weight(exp, row[i]) / Sum(Weights(exp, row))
  {
    seq(|row|, i requires 0 <= i < |row| => Weight(exp, row[i]) / Sum(Weights(exp, row)))
  }

  lemma WeightsPositive(exp: real -> real, row: Row)
    requires Exponential(exp) && HasFinite(row)
    ensures Sum(Weights(exp, row)) > 0.0
  {
    var i :| 0 <= i < |row| && row[i].Fin?;
    SumPositive(Weights(exp, row), i);
  }

  /** A distribution, in the order of the logits, zero exactly where nothing can be chosen. */
  ghost predicate Distribution(probs: seq<real>, row: Row) {
    && |probs| == |row| && Sum(probs) == 1.0
    && (forall i | 0 <= i < |row| :: probs[i] >= 0.0 && (probs[i] == 0.0 <==> row[i].NegInf?))
    && forall i, j | 0 <= i < |row| && 0 <= j < |row| :: probs[i] < probs[j] <==> Below(row[i], row[j])
  }

  lemma Quotient(a: real, b: real, t: real)
    requires t > 0.0
    ensures a / t < b / t <==> a < b
    ensures a / t == b / t <==> a == b
    ensures a >= 0.0 ==> a / t >= 0.0
    ensures 0.0 / t == 0.0
  {
    if a < b {
      assert b / t - a / t == (b - a) / t > 0.0;
    } else if b < a {
      assert a / t - b / t == (a - b) / t > 0.0;
    }
  }

  lemma QuotientSign(exp: real -> real, a: Logit, t: real)
    requires Exponential(exp) && t > 0.0
    ensures Weight(exp, a) / t >= 0.0 && (Weight(exp, a) / t == 0.0 <==> a.NegInf?)
  {
    Quotient(Weight(exp, a), 0.0, t);
  }

  lemma QuotientOrder(exp: real -> real, a: Logit, b: Logit, t: real)
    requires Exponential(exp) && t > 0.0
    ensures Weight(exp, a) / t < Weight(exp, b) / t <==> Below(a, b)
  {
    Quotient(Weight(exp, a), Weight(exp, b), t);
    assert a.Fin? && b.Fin? && b.value < a.value ==> exp(b.value) < exp(a.value);
  }

  lemma SoftmaxDistributes(exp: real -> real, row: Row)
    requires Exponential(exp) && HasFinite(row)
    ensures Sum(Weights(exp, row)) > 0.0 && Distribution(Probs(exp, row), row)
  {
    hide Sum, HasFinite, Exponential, Weight;
    WeightsPositive(exp, row);
    var t, probs := Sum(Weights(exp, row)), Probs(exp, row);
    SumScaled(Weights(exp, row), t, probs);
    assert t / t == 1.0;
    forall i | 0 <= i < |row| ensures probs[i] >= 0.0 && (probs[i] == 0.0 <==> row[i].NegInf?) {
      QuotientSign(exp, row[i], t);
    }
    forall i, j | 0 <= i < |row| && 0 <= j < |row| ensures probs[i] < probs[j] <==> Below(row[i], row[j]) {
      QuotientOrder(exp, row[i], row[j], t);
    }
  }

  /** Probabilities stand to one another as the exponentials of the logits do. */
  lemma ProbsShare(exp: real -> real, row: Row, i: nat, j: nat)
    requires Sum(Weights(exp, row)) > 0.0 && i < |row| && j < |row| && row[i].Fin? && row[j].Fin?
    ensures Probs(exp, row)[i] * exp(row[j].value) == Probs(exp, row)[j] * exp(row[i].value)
  {
    hide Sum;
    var t, a, b := Sum(Weights(exp, row)), exp(row[i].value), exp(row[j].value);
    assert (a / t) * b == (a * b) / t == (b / t) * a;
  }

  // ---- argmax ----

  /** i is a place of the largest entry. */
  ghost predicate IsArgMax(s: seq<real>, i: int) {
    0 <= i < |s| && forall j | 0 <= j < |s| :: s[j] <= s[i]
  }

  method ArgMax(s: seq<real>) returns (best: nat)
    requires |s| > 0
    ensures IsArgMax(s, best)
  {
    best := 0;
    for i := 1 to |s|
      invariant best < |s| && forall j | 0 <= j < i :: s[j] <= s[best]
    {
      if s[best] < s[i] {
        best := i;
      }
    }
  }

  ghost predicate IsBest(row: Row, i: int) {
    0 <= i < |row| && forall j | 0 <= j < |row| :: !Below(row[i], row[j])
  }

  method Best(row: Row) returns (best: nat)
    requires |row| > 0
    ensures IsBest(row, best)
  {
    best := 0;
    for i := 1 to |row|
      invariant best < |row| && forall j | 0 <= j < i :: !Below(row[best], row[j])
    {
      if Below(row[best], row[i]) {
        best := i;
      }
    }
  }

  lemma BestIsFinite(row: Row, i: int)
    requires HasFinite(row) && IsBest(row, i)
    ensures row[i].Fin?
  {}
}
