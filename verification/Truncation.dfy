/** Top-k and top-p by cutoff on the sorted probabilities. */
module Truncation {
  import opened Finite
  import opened Softmax

  // ---- which tokens should survive ----

  /** The tokens with a strictly larger logit. */
  ghost function Larger(row: Row, i: nat): set<nat>
    requires i < |row|
  {
    set j: nat | j < |row| && Below(row[i], row[j])
  }

  /** Fewer than k tokens are strictly larger. Zero and below switch the filter off. */
  ghost predicate AmongTopK(row: Row, k: int, i: nat)
    requires i < |row|
  {
    k <= 0 || |Larger(row, i)| < k
  }

  function Above(weight: real -> real, x: real): real -> real {
    y => if y > x then weight(y) else 0.0
  }

  function Id(): real -> real {
    x => x
  }

  function One(): real -> real {
    x => 1.0
  }

  /** The probability of the strictly likelier tokens. */
  function MassAbove(probs: seq<real>, x: real): real {
    SumOf(Above(Id(), x), probs)
  }

  /** The strictly likelier tokens do not make up p by themselves. */
  predicate InNucleus(probs: seq<real>, p: real, x: real) {
    MassAbove(probs, x) < p || MassAbove(probs, x) <= 0.0
  }

  // ---- a cutoff of the sorted entries ----

  lemma {:induction false} SumOfSame(f: real -> real, g: real -> real, s: seq<real>)
    requires forall i | 0 <= i < |s| :: f(s[i]) == g(s[i])
    ensures SumOf(f, s) == SumOf(g, s)
  {
    if s != [] {
      SumOfSame(f, g, s[..|s| - 1]);
    }
  }

  lemma {:induction false} SumOfZero(s: seq<real>)
    ensures SumOf((y: real) => 0.0, s) == 0.0
  {
    if s != [] {
      SumOfZero(s[..|s| - 1]);
    }
  }

  /** At or above the entry at c: only what comes after c is larger. */
  lemma FromCutoff(w: real -> real, r: seq<real>, c: nat, x: real)
    requires Ascending(r) && c < |r| && r[c] <= x
    requires forall i | 0 <= i < |r| :: w(r[i]) >= 0.0
    ensures SumOf(Above(w, x), r) <= SumOf(w, r[c + 1..])
  {
    hide SumOf;
    var head, tail := r[..c + 1], r[c + 1..];
    assert r == head + tail;
    SumOfConcat(Above(w, x), head, tail);
    var zero := (y: real) => 0.0;
    SumOfSame(Above(w, x), zero, head);
    SumOfZero(head);
    SumOfBetween(Above(w, x), w, tail);
  }

  /** Below it: everything from c on is larger. */
  lemma BelowCutoff(w: real -> real, r: seq<real>, c: nat, x: real)
    requires Ascending(r) && c < |r| && x < r[c]
    requires forall i | 0 <= i < |r| :: w(r[i]) >= 0.0
    ensures SumOf(Above(w, x), r) >= SumOf(w, r[c..])
  {
    hide SumOf;
    var head, tail := r[..c], r[c..];
    assert r == head + tail;
    SumOfConcat(Above(w, x), head, tail);
    SumOfSame(Above(w, x), w, tail);
    SumOfZero(head);
    var zero := (y: real) => 0.0;
    SumOfBetween(zero, Above(w, x), head);
  }

  lemma {:induction false} SumOfOnes(s: seq<real>)
    ensures SumOf(One(), s) == |s| as real
  {
    if s != [] {
      SumOfOnes(s[..|s| - 1]);
    }
  }

  /** The places of the entries above x. */
  ghost function Places(s: seq<real>, x: real): set<nat> {
    set j: nat | j < |s| && s[j] > x
  }

  lemma LastPlace(s: seq<real>, x: real)
    requires s != []
    ensures |Places(s, x)| == |Places(s[..|s| - 1], x)| + if s[|s| - 1] > x then 1 else 0
  {
    var before := Places(s[..|s| - 1], x);
    assert |s| - 1 !in before;
    assert Places(s, x) == if s[|s| - 1] > x then before + {|s| - 1} else before;
  }

  /** Counting with weight one counts places. */
  lemma {:induction false} CountedPlaces(s: seq<real>, x: real)
    ensures SumOf(Above(One(), x), s) == |Places(s, x)| as real
  {
    if s != [] {
      CountedPlaces(s[..|s| - 1], x);
      LastPlace(s, x);
    } else {
      assert Places(s, x) == {};
    }
  }

  // ---- top-k ----

  /** The entry k places from the top of the sorted probabilities is a cutoff between the tokens
      with fewer than k larger ones and the rest. */
  lemma TopKCutoff(probs: seq<real>, row: Row, k: nat, i: nat)
    requires Distribution(probs, row) && 0 < k <= |row| && i < |row|
    ensures probs[i] >= Sorted(probs)[|row| - k] <==> |Larger(row, i)| < k
  {
    hide Sum, SumOf;
    var r, x, c := Sorted(probs), probs[i], |row| - k;
    SortedIs(Above(One(), x), probs);
    CountedPlaces(probs, x);
    assert Larger(row, i) == Places(probs, x);
    if x >= r[c] {
      FromCutoff(One(), r, c, x);
      SumOfOnes(r[c + 1..]);
    } else {
      BelowCutoff(One(), r, c, x);
      SumOfOnes(r[c..]);
    }
  }

  // ---- top-p ----

  function CumSum(s: seq<real>): (r: seq<real>)
    ensures |r| == |s| && forall i | 0 <= i < |s| :: r[i] == Sum(s[..i + 1])
  {
    seq(|s|, i requires 0 <= i < |s| => Sum(s[..i + 1]))
  }

  function Trues(s: seq<bool>): (n: nat)
    ensures n <= |s|
    ensures (exists i :: 0 <= i < |s| && !s[i]) ==> n < |s|
  {
    if s == [] then 0
    else
      var n := Trues(s[..|s| - 1]);
      assert s[|s| - 1] ==> forall i | 0 <= i < |s| && !s[i] :: !s[..|s| - 1][i];
      n + (if s[|s| - 1] then 1 else 0)
  }

  /** Whether the entries up to and including i weigh no more than 1 - p; never the last. */
  function LowMask(r: seq<real>, p: real): (mask: seq<bool>)
    ensures |mask| == |r|
    ensures forall i | 0 <= i < |r| :: mask[i] <==> CumSum(r)[i] <= 1.0 - p && i < |r| - 1
  {
    seq(|r|, i requires 0 <= i < |r| => CumSum(r)[i] <= 1.0 - p && i < |r| - 1)
  }

  lemma {:induction false} AllTrue(mask: seq<bool>)
    requires forall i | 0 <= i < |mask| :: mask[i]
    ensures Trues(mask) == |mask|
  {
    if mask != [] {
      AllTrue(mask[..|mask| - 1]);
    }
  }

  /** A mask that is true on a prefix counts that prefix. */
  lemma {:induction false} TruesOfPrefix(mask: seq<bool>)
    requires forall i, j | 0 <= i <= j < |mask| && mask[j] :: mask[i]
    ensures forall i | 0 <= i < |mask| :: mask[i] <==> i < Trues(mask)
  {
    if mask != [] {
      TruesOfPrefix(mask[..|mask| - 1]);
      if mask[|mask| - 1] {
        AllTrue(mask);
      } else {
        assert forall i | 0 <= i < |mask| - 1 :: mask[..|mask| - 1][i] == mask[i];
      }
    }
  }

  lemma {:induction false} SumIsId(s: seq<real>)
    ensures Sum(s) == SumOf(Id(), s)
  {
    if s != [] {
      SumIsId(s[..|s| - 1]);
    }
  }

  lemma {:induction false} SumSplits(s: seq<real>, c: nat)
    requires c <= |s|
    ensures Sum(s) == Sum(s[..c]) + SumOf(Id(), s[c..])
  {
    assert s == s[..c] + s[c..];
    SumOfConcat(Id(), s[..c], s[c..]);
    SumIsId(s);
    SumIsId(s[..c]);
  }

  lemma SumGrows(s: seq<real>, i: nat, j: nat)
    requires i <= j <= |s| && forall k | 0 <= k < |s| :: s[k] >= 0.0
    ensures Sum(s[..i]) <= Sum(s[..j])
    decreases j
  {
    if i < j {
      SumGrows(s, i, j - 1);
      assert s[..j][..j - 1] == s[..j - 1];
    }
  }

  lemma SumOfNone(f: real -> real)
    ensures SumOf(f, []) == 0.0
  {}

  lemma SumOfFrom(r: seq<real>, c: nat)
    requires Ascending(r) && c < |r| && 0.0 < r[c]
    ensures SumOf(Id(), r[c..]) > 0.0
  {
    SumIsId(r[c..]);
    SumPositive(r[c..], 0);
  }

  lemma SortedWeighs(probs: seq<real>, x: real)
    requires forall i | 0 <= i < |probs| :: probs[i] >= 0.0
    requires Sum(probs) == 1.0
    ensures Ascending(Sorted(probs)) && Sum(Sorted(probs)) == 1.0
    ensures SumOf(Above(Id(), x), Sorted(probs)) == MassAbove(probs, x)
    ensures forall i | 0 <= i < |probs| :: Sorted(probs)[i] >= 0.0
  {
    SortedIs(Id(), probs);
    SortedIs(Above(Id(), x), probs);
    SumIsId(probs);
    SumIsId(Sorted(probs));
    assert forall i | 0 <= i < |probs| :: Sorted(probs)[i] in Sorted(probs);
  }

  lemma LowPrefix(r: seq<real>, p: real)
    requires |r| > 0 && forall i | 0 <= i < |r| :: r[i] >= 0.0
    ensures var c := Trues(LowMask(r, p));
            c < |r| && (c > 0 ==> Sum(r[..c]) <= 1.0 - p) && (c < |r| - 1 ==> Sum(r[..c + 1]) > 1.0 - p)
  {
    var mask := LowMask(r, p);
    forall i, j | 0 <= i <= j < |mask| && mask[j] ensures mask[i] {
      SumGrows(r, i + 1, j + 1);
    }
    TruesOfPrefix(mask);
    var c := Trues(mask);
    assert !mask[|r| - 1];
    assert c > 0 ==> mask[c - 1];
    assert !mask[c];
  }

  lemma {:induction false} InsertKeeps(s: seq<real>, x: real)
    ensures x in Insert(s, x) && forall y | y in s :: y in Insert(s, x)
  {
    if s != [] && s[|s| - 1] > x {
      InsertKeeps(s[..|s| - 1], x);
    }
  }

  lemma {:induction false} SortedKeeps(s: seq<real>, x: real)
    requires x in s
    ensures x in Sorted(s)
  {
    var front, last := s[..|s| - 1], s[|s| - 1];
    if x in front {
      SortedKeeps(front, x);
    } else {
      assert x == last;
    }
    InsertKeeps(Sorted(front), last);
  }

  lemma LeastEntry(s: seq<real>, i: nat)
    requires i < |s|
    ensures Sorted(s)[0] <= s[i]
  {
    SortedKeeps(s, s[i]);
    SortedIs(Id(), s);
  }

  /** The entry as many places up as the low mask counts is a cutoff between the tokens whose
      likelier ones weigh less than p and the rest. */
  lemma TopPCutoff(probs: seq<real>, row: Row, p: real, i: nat)
    requires Distribution(probs, row) && i < |row|
    ensures Trues(LowMask(Sorted(probs), p)) < |row|
    ensures probs[i] >= Sorted(probs)[Trues(LowMask(Sorted(probs), p))] <==> InNucleus(probs, p, probs[i])
  {
    hide Sum, SumOf, Trues;
    var r, x := Sorted(probs), probs[i];
    var c := Trues(LowMask(r, p));
    SortedWeighs(probs, x);
    LowPrefix(r, p);
    SumSplits(r, c);
    SumSplits(r, c + 1);
    if x >= r[c] {
      FromCutoff(Id(), r, c, x);
      if c == |r| - 1 {
        assert r[c + 1..] == [];
        SumOfNone(Id());
      }
    } else {
      BelowCutoff(Id(), r, c, x);
      if c == 0 {
        LeastEntry(probs, i);
        assert false;
      }
      SumOfFrom(r, c);
    }
  }

  // ---- what the filters keep ----

  /** A likeliest token among some. */
  lemma {:induction false} Likeliest(probs: seq<real>, among: set<nat>) returns (top: nat)
    requires among != {} && forall i | i in among :: i < |probs|
    ensures top in among && forall i | i in among :: probs[i] <= probs[top]
    decreases |among|
  {
    top :| top in among;
    var rest := among - {top};
    if rest != {} {
      var other := Likeliest(probs, rest);
      if probs[top] < probs[other] {
        top := other;
      }
    }
  }

  function InNucleusWeight(probs: seq<real>, p: real): real -> real {
    y => if InNucleus(probs, p, y) then y else 0.0
  }

  lemma NucleusIs(probs: seq<real>, p: real, x: real)
    requires p > 0.0
    ensures InNucleus(probs, p, x) <==> MassAbove(probs, x) < p
  {}

  /** The tokens top-p keeps weigh at least p; without the least likely of them, ties included,
      they weigh less than p. */
  lemma NucleusMass(probs: seq<real>, row: Row, p: real, least: real)
    requires Distribution(probs, row) && 0.0 < p <= 1.0
    requires least in probs && InNucleus(probs, p, least)
    ensures SumOf(InNucleusWeight(probs, p), probs) >= p
    ensures MassAbove(probs, least) < p
  {
    hide Sum, SumOf, InNucleus;
    assert InNucleus(probs, p, least) ==> MassAbove(probs, least) < p by { NucleusIs(probs, p, least); }
    var out := set i: nat | i < |probs| && !InNucleus(probs, p, probs[i]);
    if out == {} {
      forall i | 0 <= i < |probs| ensures InNucleusWeight(probs, p)(probs[i]) == Id()(probs[i]) {
        assert i !in out;
      }
      SumOfSame(InNucleusWeight(probs, p), Id(), probs);
      SumIsId(probs);
    } else {
      var top := Likeliest(probs, out);
      var x := probs[top];
      NucleusIs(probs, p, x);
      forall i | 0 <= i < |probs| ensures Above(Id(), x)(probs[i]) <= InNucleusWeight(probs, p)(probs[i]) {
        assert probs[i] > x ==> i !in out;
      }
      SumOfBetween(Above(Id(), x), InNucleusWeight(probs, p), probs);
    }
  }

  /** Top-k keeps at least k tokens. */
  lemma TopKKeeps(probs: seq<real>, row: Row, k: nat)
    requires Distribution(probs, row) && k <= |row|
    ensures |set i: nat | i < |row| && AmongTopK(row, k, i)| >= k
  {
    hide Sum;
    var kept := set i: nat | i < |row| && AmongTopK(row, k, i);
    var out := set i: nat | i < |row| && i !in kept;
    if out == {} {
      assert kept == Upto(|row|);
    } else {
      var top := Likeliest(probs, out);
      assert Larger(row, top) <= kept;
      SubsetSize(Larger(row, top), kept);
    }
  }

  /** The best token passes both. */
  lemma BestSurvives(probs: seq<real>, row: Row, k: int, p: real, i: nat)
    requires Distribution(probs, row) && i < |row| && IsBest(row, i)
    ensures AmongTopK(row, k, i) && InNucleus(probs, p, probs[i])
  {
    assert Larger(row, i) == {};
    SumOfSame(Above(Id(), probs[i]), (y: real) => 0.0, probs);
    SumOfZero(probs);
  }
}
