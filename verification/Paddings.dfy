/** Padding buckets: the few token counts and request counts that graphs are compiled for. */
module Paddings {

  // ---- powers of two, bit by bit ----

  function Pow2(k: nat): (p: nat)
    ensures p >= 1
  {
    if k == 0 then 1 else 2 * Pow2(k - 1)
  }

  predicate IsPow2(p: int) {
    p >= 1 && exists k: nat | k <= p :: Pow2(k) == p
  }

  lemma {:induction false} Pow2Grows(j: nat, k: nat)
    requires j < k
    ensures 2 * Pow2(j) <= Pow2(k)
  {
    if j < k - 1 {
      Pow2Grows(j, k - 1);
    }
  }

  lemma {:induction false} Pow2Above(k: nat)
    ensures k < Pow2(k)
  {
    if k > 0 {
      Pow2Above(k - 1);
    }
  }

  lemma Pow2IsPow2(k: nat)
    ensures IsPow2(Pow2(k))
  {
    Pow2Above(k);
  }

  /** `n.bit_length()`. */
  function BitLength(n: nat): nat {
    if n == 0 then 0 else 1 + BitLength(n / 2)
  }

  lemma {:induction false} BitLengthBounds(n: nat)
    ensures n < Pow2(BitLength(n)) && (n > 0 ==> Pow2(BitLength(n)) <= 2 * n)
  {
    if n > 0 {
      BitLengthBounds(n / 2);
    }
  }

  /** `1 << (x - 1).bit_length()`. */
  function RoundUp(x: int): nat
    requires x >= 1
  {
    Pow2(BitLength(x - 1))
  }

  /** It is the least power of two that is not below x. */
  lemma RoundUpLeast(x: int)
    requires x >= 1
    ensures IsPow2(RoundUp(x)) && x <= RoundUp(x) && (x > 1 ==> RoundUp(x) < 2 * x)
    ensures forall p | IsPow2(p) && p >= x :: RoundUp(x) <= p
  {
    Pow2IsPow2(BitLength(x - 1));
    BitLengthBounds(x - 1);
    forall p | IsPow2(p) && p >= x ensures RoundUp(x) <= p {
      var k: nat :| k <= p && Pow2(k) == p;
      if k < BitLength(x - 1) {
        Pow2Grows(k, BitLength(x - 1));
      } else if BitLength(x - 1) < k {
        Pow2Grows(BitLength(x - 1), k);
      }
    }
  }

  lemma RoundUpIdempotent(p: int)
    requires IsPow2(p)
    ensures RoundUp(p) == p && RoundUp(p + 1) == 2 * p
  {
    RoundUpLeast(p);
    RoundUpLeast(p + 1);
    var k: nat :| k <= p && Pow2(k) == p;
    Pow2IsPow2(k + 1);
    assert Pow2(k + 1) == 2 * p;
    var m: nat :| m <= RoundUp(p + 1) && Pow2(m) == RoundUp(p + 1);
    if m < k {
      Pow2Grows(m, k);
    } else if k < m {
      Pow2Grows(k, m);
    }
  }

  /** `a & b`. */
  function And(a: nat, b: nat): nat {
    if a == 0 || b == 0 then 0 else 2 * And(a / 2, b / 2) + (a % 2) * (b % 2)
  }

  lemma {:induction false} AndSelf(a: nat)
    ensures And(a, a) == a
  {
    if a > 0 {
      AndSelf(a / 2);
      if a % 2 == 0 {
        assert a == 2 * (a / 2);
      } else {
        assert a == 2 * (a / 2) + 1;
      }
    }
  }

  lemma HalfPow2(m: nat)
    requires m >= 2 && m % 2 == 0
    ensures IsPow2(m) <==> IsPow2(m / 2)
  {
    if IsPow2(m) {
      var k: nat :| k <= m && Pow2(k) == m;
      assert Pow2(k - 1) == m / 2;
      Pow2IsPow2(k - 1);
    }
    if IsPow2(m / 2) {
      var k: nat :| k <= m / 2 && Pow2(k) == m / 2;
      assert Pow2(k + 1) == m;
      Pow2IsPow2(k + 1);
    }
  }

  lemma OddPow2(m: nat)
    requires m >= 2 && m % 2 == 1
    ensures !IsPow2(m)
  {
    forall k: nat ensures Pow2(k) != m {
      if k > 0 {
        assert Pow2(k) == 2 * Pow2(k - 1);
      }
    }
  }

  /** The bit trick: m has no bit in common with m - 1 exactly when m is a power of two. */
  lemma {:induction false} BitTrick(m: nat)
    requires m >= 1
    ensures And(m, m - 1) == 0 <==> IsPow2(m)
  {
    if m == 1 {
      Pow2IsPow2(0);
    } else if m % 2 == 0 {
      BitTrick(m / 2);
      assert (m - 1) / 2 == m / 2 - 1;
      HalfPow2(m);
    } else {
      assert (m - 1) / 2 == m / 2;
      AndSelf(m / 2);
      OddPow2(m);
    }
  }

  // ---- token buckets ----

  const MIN_TOKENS := 32

  function AdjustMinToken(m: int): (r: nat)
  {
    if m >= MIN_TOKENS && And(m, m - 1) == 0 then m
    else if m > MIN_TOKENS then RoundUp(m)
    else MIN_TOKENS
  }

  /** A power of two is one, or twice a power of two. */
  lemma Pow2Is(p: int)
    ensures IsPow2(p) <==> p == 1 || (p > 1 && p % 2 == 0 && IsPow2(p / 2))
  {
    if p == 1 {
      Pow2IsPow2(0);
    } else if p > 1 && p % 2 == 0 {
      HalfPow2(p);
    } else if p > 1 {
      OddPow2(p);
    }
  }

  lemma MinIsPow2()
    ensures IsPow2(32)
  {
    assert Pow2(5) == 2 * Pow2(4) && Pow2(4) == 2 * Pow2(3) && Pow2(3) == 2 * Pow2(2) && Pow2(2) == 2 * Pow2(1);
    Pow2IsPow2(5);
  }

  /** The least power of two that is neither below 32 nor below the requested size. */
  lemma AdjustedLeast(m: int)
    ensures var r := AdjustMinToken(m);
            && IsPow2(r) && r >= 32 && r >= m
            && forall p | IsPow2(p) && p >= 32 && p >= m :: r <= p
  {
    MinIsPow2();
    if m >= MIN_TOKENS {
      BitTrick(m);
      RoundUpLeast(m);
    }
  }

  ghost predicate Increasing(s: seq<int>) {
    forall i, j | 0 <= i < j < |s| :: s[i] < s[j]
  }

  /** Buckets 1, then doubling from `first`, all but the last below `max`. */
  ghost predicate Doubling(s: seq<int>, first: int, max: int) {
    && |s| >= 2 && s[0] == 1 && s[1] == first
    && forall i | 1 <= i < |s| - 1 :: s[i + 1] == 2 * s[i] && s[i] < max
  }

  /** One token for decoding, then doubling until everything is covered. */
  method GetTokenPaddings(minTokens: int, maxTokens: int) returns (paddings: seq<int>)
    ensures Doubling(paddings, AdjustMinToken(minTokens), maxTokens)
    ensures Increasing(paddings) && paddings[|paddings| - 1] >= maxTokens
    ensures |paddings| >= 2 && paddings[0] == 1 && paddings[1] == AdjustMinToken(minTokens)
    ensures forall i, j | 0 <= i < j < |paddings| :: paddings[i] < paddings[j]
    ensures forall i | 1 <= i < |paddings| - 1 :: paddings[i + 1] == 2 * paddings[i] && paddings[i] < maxTokens
  {
    AdjustedLeast(minTokens);
    var num: int := AdjustMinToken(minTokens);
    paddings := [1];
    while true
      invariant |paddings| >= 1 && num >= MIN_TOKENS
      invariant Increasing(paddings) && paddings[|paddings| - 1] < num
      invariant |paddings| == 1 ==> paddings == [1] && num == AdjustMinToken(minTokens)
      invariant |paddings| > 1 ==> Doubling(paddings, AdjustMinToken(minTokens), maxTokens)
      invariant |paddings| > 1 ==> paddings[|paddings| - 1] < maxTokens && num == 2 * paddings[|paddings| - 1]
      decreases maxTokens - num
    {
      paddings := paddings + [num];
      if num >= maxTokens {
        break;
      }
      num := num * 2;
    }
  }

  /** `bisect_left`: how many entries lie below x. */
  method BisectLeft(s: seq<int>, x: int) returns (index: nat)
    requires Increasing(s)
    ensures index <= |s| && (forall i | 0 <= i < index :: s[i] < x) && (forall i | index <= i < |s| :: s[i] >= x)
  {
    var lo, hi := 0, |s|;
    while lo < hi
      invariant 0 <= lo <= hi <= |s|
      invariant (forall i | 0 <= i < lo :: s[i] < x) && (forall i | hi <= i < |s| :: s[i] >= x)
    {
      var mid := (lo + hi) / 2;
      if s[mid] < x {
        lo := mid + 1;
      } else {
        hi := mid;
      }
    }
    index := lo;
  }

  /** The least bucket that holds x tokens; every count up to the maximum has one, and past the first prefill bucket
      it wastes less than half of itself. */
  method GetPaddedTokenLen(paddings: seq<int>, ghost first: int, ghost maxTokens: int, x: int) returns (bucket: int)
    requires Doubling(paddings, first, maxTokens) && Increasing(paddings)
    requires paddings[|paddings| - 1] >= maxTokens && x <= maxTokens
    ensures bucket in paddings && bucket >= x
    ensures forall b | b in paddings && b >= x :: bucket <= b
    ensures x > first ==> bucket < 2 * x
  {
    var index := BisectLeft(paddings, x);
    bucket := paddings[index];
    if x > first {
      assert index >= 2 && paddings[index - 1 + 1] == 2 * paddings[index - 1];
    }
  }

  // ---- request buckets ----

  const MIN_NUM_SEQS := 1

  function PaddedNumReqs(x: int, limit: int): int {
    var res := if x <= MIN_NUM_SEQS then MIN_NUM_SEQS else RoundUp(x);
    if res <= limit then res else limit
  }

  /** Every count is padded to the next power of two, or to the limit when that is less. */
  lemma PaddedNumReqsIs(x: int, limit: int)
    requires 1 <= x <= limit
    ensures var p := PaddedNumReqs(x, limit);
            && x <= p <= limit && (p == limit || IsPow2(p)) && (p < limit ==> p < 2 * x)
            && (x == 1 ==> p == 1)
  {
    RoundUpLeast(x);
    Pow2IsPow2(0);
  }

  /** The bucket after num: its double, or the limit. */
  lemma NextReqs(num: int, limit: int)
    requires 1 <= num <= limit && (IsPow2(num) || num == limit)
    ensures var next := PaddedNumReqs(num + 1, limit);
            && next == (if num == limit || 2 * num > limit then limit else 2 * num)
            && (IsPow2(next) || next == limit)
  {
    RoundUpLeast(num + 1);
    if IsPow2(num) {
      RoundUpIdempotent(num);
    }
  }

  lemma NoPow2Between(num: int, p: int)
    requires IsPow2(num) && IsPow2(p) && num < p
    ensures 2 * num <= p
  {
    RoundUpLeast(num + 1);
    RoundUpIdempotent(num);
  }

  /** All powers of two from the minimum on, up to the limit, and the limit. */
  method GetReqPaddings(minReqs: int, maxReqs: int) returns (paddings: seq<int>)
    requires minReqs > 0 && And(minReqs, minReqs - 1) == 0
    ensures Increasing(paddings)
    ensures forall i, j | 0 <= i < j < |paddings| :: paddings[i] < paddings[j]
    ensures forall n :: n in paddings <==> minReqs <= n <= maxReqs && (n == maxReqs || IsPow2(n))
  {
    BitTrick(minReqs);
    paddings := [];
    var num := minReqs;
    while num <= maxReqs && (|paddings| == 0 || paddings[|paddings| - 1] != num)
      invariant minReqs <= num && (IsPow2(num) || num == maxReqs) && (|paddings| > 0 ==> num <= maxReqs)
      invariant Increasing(paddings) && (|paddings| == 0 <==> num == minReqs && |paddings| == 0)
      invariant |paddings| > 0 ==> paddings[|paddings| - 1] <= num
      invariant |paddings| > 0 && paddings[|paddings| - 1] == num ==> num == maxReqs
      invariant forall n | n in paddings :: minReqs <= n <= maxReqs && (n == maxReqs || IsPow2(n))
      invariant forall n | minReqs <= n < num && n <= maxReqs && IsPow2(n) :: n in paddings
      decreases 2 * maxReqs - num - (if |paddings| > 0 then paddings[|paddings| - 1] else 0)
    {
      paddings := paddings + [num];
      NextReqs(num, maxReqs);
      var next := PaddedNumReqs(num + 1, maxReqs);
      forall n | minReqs <= n < next && n <= maxReqs && IsPow2(n) ensures n in paddings {
        if n > num {
          NoPow2Between(num, n);
        }
      }
      num := next;
    }
  }

  /** Every number of requests that can occur is padded to one of the buckets. */
  lemma EveryCountCovered(paddings: seq<int>, maxReqs: int, x: int)
    requires forall n :: n in paddings <==> 1 <= n <= maxReqs && (n == maxReqs || IsPow2(n))
    requires 1 <= x <= maxReqs
    ensures PaddedNumReqs(x, maxReqs) in paddings && PaddedNumReqs(x, maxReqs) >= x
  {
    PaddedNumReqsIs(x, maxReqs);
  }
}
