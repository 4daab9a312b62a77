/** Sampling the next token of one row of the batch. */
module Sampler {
  import opened Finite
  import opened Basics
  import opened Softmax
  import opened SamplingMasks
  import opened Truncation

  datatype Penalties = Penalties(counts: seq<nat>, prompt: seq<bool>, presence: real, frequency: real, repetition: real)

  predicate Blocks(mask: Option<Row>, t: nat) {
    mask.Some? && t < |mask.value| && mask.value[t].NegInf?
  }

  /** A row's part of the sampling metadata; a missing mask, bias or penalty is one the whole batch
      goes without. */
  datatype Metadata = Metadata(
    allowed: Option<Row>, minTokens: Option<Row>, badWords: Option<Row>, bias: Option<Row>,
    penalties: Option<Penalties>, temperature: real, allRandom: bool,
    minP: Option<real>, topK: Option<int>, topP: Option<real>)
  {
    predicate Fits(vocab: nat) {
      && (allowed.Some? ==> |allowed.value| == vocab)
      && (minTokens.Some? ==> |minTokens.value| == vocab)
      && (badWords.Some? ==> |badWords.value| == vocab)
      && (bias.Some? ==> |bias.value| == vocab && forall t | 0 <= t < vocab :: bias.value[t].Fin?)
      && (penalties.Some? ==>
            |penalties.value.counts| == |penalties.value.prompt| == vocab && penalties.value.repetition > 0.0)
      && (allRandom ==> temperature >= SAMPLING_EPS)
      && (minP.Some? ==> minP.value <= 1.0)
      && (topK.Some? ==> topK.value <= vocab)
    }

    /** Some mask rules the token out. */
    predicate Masked(t: nat) {
      Blocks(allowed, t) || Blocks(minTokens, t) || Blocks(badWords, t)
    }

    /** The logits are replaced by new ones before the first update in place. */
    predicate Rebinds() {
      allowed.Some? || minTokens.Some? || badWords.Some? || bias.Some? || penalties.Some?
    }
  }

  // ---- masks, bias and penalties: new logits ----

  function Add(a: Logit, b: Logit): Logit {
    if a.NegInf? || b.NegInf? then NegInf else Fin(a.value + b.value)
  }

  function Plus(row: Row, mask: Option<Row>): (r: Row)
    requires mask.Some? ==> |mask.value| == |row|
    ensures |r| == |row|
  {
    if mask.None? then row else seq(|row|, t requires 0 <= t < |row| => Add(row[t], mask.value[t]))
  }

  function Penalized(l: Logit, count: nat, prompt: bool, p: Penalties): Logit
    requires p.repetition > 0.0
  {
    if l.NegInf? then NegInf
    else
      var factor := if l.value > 0.0 then 1.0 / p.repetition else p.repetition;
      var repeated := if count > 0 || prompt then l.value * factor else l.value;
      var lowered := repeated - p.frequency * count as real;
      Fin(lowered - p.presence * (if count > 0 then 1.0 else 0.0))
  }

  function WithPenalties(row: Row, p: Option<Penalties>): (r: Row)
    requires p.Some? ==> |p.value.counts| == |p.value.prompt| == |row| && p.value.repetition > 0.0
    ensures |r| == |row|
  {
    if p.None? then row
    else seq(|row|, t requires 0 <= t < |row| => Penalized(row[t], p.value.counts[t], p.value.prompt[t], p.value))
  }

  /** Penalties that discourage never raise a logit, and leave alone what has not occurred; the
      padding values change nothing at all. */
  lemma PenaltiesLower(l: Logit, count: nat, prompt: bool, p: Penalties)
    requires p.repetition > 0.0
    ensures p.repetition >= 1.0 && p.frequency >= 0.0 && p.presence >= 0.0 ==> !Below(l, Penalized(l, count, prompt, p))
    ensures count == 0 && !prompt ==> Penalized(l, count, prompt, p) == l
    ensures p.repetition == 1.0 && p.frequency == 0.0 && p.presence == 0.0 ==> Penalized(l, count, prompt, p) == l
  {
    if l.Fin? && p.repetition >= 1.0 {
      var x, rep := l.value, p.repetition;
      if x > 0.0 {
        assert 1.0 / rep <= 1.0;
        assert x * (1.0 / rep) <= x;
      } else {
        assert x * rep <= x;
      }
      if p.frequency >= 0.0 {
        assert p.frequency * count as real >= 0.0;
      }
    }
  }

  function Adjusted(row: Row, m: Metadata): (r: Row)
    requires m.Fits(|row|)
    ensures |r| == |row|
  {
    WithPenalties(Plus(Plus(Plus(Plus(row, m.allowed), m.minTokens), m.badWords), m.bias), m.penalties)
  }

  /** Nothing after a mask brings a masked token back, and nothing else takes one away. */
  lemma AdjustedBans(row: Row, m: Metadata, t: nat)
    requires m.Fits(|row|) && t < |row|
    ensures Adjusted(row, m)[t].Fin? <==> row[t].Fin? && !m.Masked(t)
  {}

  // ---- temperature and filters, in place ----

  function Divided(l: Logit, temperature: real): Logit
    requires temperature != 0.0
  {
    if l.NegInf? then NegInf else Fin(l.value / temperature)
  }

  function Divisor(temperature: real, allRandom: bool): real {
    if !allRandom && temperature < SAMPLING_EPS then 1.0 else temperature
  }

  function Tempered(row: Row, temperature: real, allRandom: bool): (r: Row)
    requires allRandom ==> temperature >= SAMPLING_EPS
    ensures |r| == |row|
  {
    seq(|row|, i requires 0 <= i < |row| => Divided(row[i], Divisor(temperature, allRandom)))
  }

  method ApplyTemperature(logits: array<Logit>, temperature: real, allRandom: bool)
    requires allRandom ==> temperature >= SAMPLING_EPS
    modifies logits
    ensures logits[..] == Tempered(old(logits[..]), temperature, allRandom)
  {
    var t := temperature;
    if !allRandom {
      t := if t < SAMPLING_EPS then 1.0 else t;
    }
    forall i | 0 <= i < logits.Length {
      logits[i] := Divided(logits[i], t);
    }
  }

  function Peak(s: seq<real>): (r: real)
    requires |s| > 0
    ensures r in s && forall i | 0 <= i < |s| :: s[i] <= r
  {
    if |s| == 1 then s[0]
    else
      var before := Peak(s[..|s| - 1]);
      assert forall i | 0 <= i < |s| - 1 :: s[i] == s[..|s| - 1][i];
      if s[|s| - 1] > before then s[|s| - 1] else before
  }

  /** Some token weighs more than this one even when only m of its weight counts. */
  ghost predicate Outweighed(exp: real -> real, row: Row, m: real, i: nat)
    requires i < |row|
  {
    exists j :: 0 <= j < |row| && Weight(exp, row[i]) < m * Weight(exp, row[j])
  }

  /** The tokens that weigh at least minP times as much as any other. */
  ghost function Likely(exp: real -> real, row: Row, minP: Option<real>): (r: Row)
    ensures |r| == |row|
  {
    seq(|row|, i requires 0 <= i < |row| =>
      if minP.Some? && Outweighed(exp, row, minP.value, i) then NegInf else row[i])
  }

  lemma SomeWeight(exp: real -> real, row: Row)
    requires Sum(Weights(exp, row)) > 0.0
    ensures |row| > 0
  {}

  lemma ScaledOrder(a: real, b: real, m: real, t: real)
    requires t > 0.0
    ensures a / t < m * (b / t) <==> a < m * b
  {
    assert m * (b / t) == (m * b) / t;
    Quotient(a, m * b, t);
  }

  lemma ScaledShare(m: real, more: real, w: real)
    requires w >= 0.0 && m <= more
    ensures m * w <= more * w
    ensures m <= 0.0 ==> m * w <= 0.0
  {}

  lemma ScaledGrows(m: real, w: real, a: real, b: real)
    requires 0.0 <= w && 0.0 <= a <= b && w < m * a
    ensures w < m * b
  {
    if m > 0.0 {
      assert m * a <= m * b;
    }
  }

  lemma NotNegative(exp: real -> real, l: Logit)
    requires Exponential(exp)
    ensures Weight(exp, l) >= 0.0
  {}

  /** The heaviest token outweighs whatever any token does. */
  lemma HeaviestOutweighs(exp: real -> real, row: Row, m: real, i: nat, best: nat)
    requires Exponential(exp) && i < |row| && best < |row|
    requires forall j | 0 <= j < |row| :: Weight(exp, row[j]) <= Weight(exp, row[best])
    ensures Outweighed(exp, row, m, i) <==> Weight(exp, row[i]) < m * Weight(exp, row[best])
  {
    hide Weight, Exponential;
    if Outweighed(exp, row, m, i) {
      var j :| 0 <= j < |row| && Weight(exp, row[i]) < m * Weight(exp, row[j]);
      NotNegative(exp, row[i]);
      NotNegative(exp, row[j]);
      ScaledGrows(m, Weight(exp, row[i]), Weight(exp, row[j]), Weight(exp, row[best]));
    }
  }

  lemma PeakPlace(s: seq<real>) returns (best: nat)
    requires |s| > 0
    ensures IsArgMax(s, best) && s[best] == Peak(s)
  {
    var r := Peak(s);
    assert r in s;
    best :| 0 <= best < |s| && s[best] == r;
  }

  /** Comparing with the largest probability is comparing with every weight, before any normalisation. */
  lemma BelowPeak(exp: real -> real, row: Row, m: real, i: nat)
    requires Exponential(exp) && Sum(Weights(exp, row)) > 0.0 && i < |row|
    ensures Probs(exp, row)[i] < m * Peak(Probs(exp, row)) <==> Outweighed(exp, row, m, i)
  {
    hide Sum, Peak, Weight, Exponential, Outweighed;
    var probs, t := Probs(exp, row), Sum(Weights(exp, row));
    SomeWeight(exp, row);
    var best := PeakPlace(probs);
    ScaledOrder(Weight(exp, row[i]), Weight(exp, row[best]), m, t);
    forall j | 0 <= j < |row| ensures Weight(exp, row[j]) <= Weight(exp, row[best]) {
      Quotient(Weight(exp, row[best]), Weight(exp, row[j]), t);
    }
    HeaviestOutweighs(exp, row, m, i, best);
  }

  /** Softmax, the largest probability, and a comparison with a part of it: what is left is what weighs enough. */
  method ApplyMinP(exp: real -> real, logits: array<Logit>, minP: real)
    requires Exponential(exp) && Sum(Weights(exp, logits[..])) > 0.0
    modifies logits
    ensures logits[..] == Likely(exp, old(logits[..]), Some(minP))
  {
    hide Sum, Weight, Peak, Outweighed;
    SomeWeight(exp, logits[..]);
    ghost var row := logits[..];
    var probs := Probs(exp, logits[..]);
    var threshold := minP * Peak(probs);
    forall i | 0 <= i < logits.Length ensures probs[i] < threshold <==> Outweighed(exp, row, minP, i) {
      BelowPeak(exp, row, minP, i);
    }
    forall i | 0 <= i < logits.Length && !(probs[i] >= threshold) {
      logits[i] := NegInf;
    }
  }

  /** Filtering again, with the probabilities of what is left, drops nothing more. */
  lemma MinPTwice(exp: real -> real, row: Row, m: real)
    requires Exponential(exp)
    ensures Likely(exp, Likely(exp, row, Some(m)), Some(m)) == Likely(exp, row, Some(m))
  {
    hide Exponential;
    var once := Likely(exp, row, Some(m));
    forall i | 0 <= i < |row| && !Outweighed(exp, row, m, i) ensures !Outweighed(exp, once, m, i) {
      NotNegative(exp, row[i]);
    }
  }

  /** A larger share keeps fewer tokens, and none at all, or a negative one, drops nothing. */
  lemma MinPMonotone(exp: real -> real, row: Row, m: real, more: real, i: nat)
    requires Exponential(exp) && m <= more && i < |row|
    ensures Outweighed(exp, row, m, i) ==> Outweighed(exp, row, more, i)
    ensures m <= 0.0 ==> !Outweighed(exp, row, m, i)
  {
    hide Exponential, Weight;
    forall j | 0 <= j < |row| ensures m * Weight(exp, row[j]) <= more * Weight(exp, row[j])
                              ensures m <= 0.0 ==> m * Weight(exp, row[j]) <= 0.0 {
      NotNegative(exp, row[j]);
      ScaledShare(m, more, Weight(exp, row[j]));
    }
    NotNegative(exp, row[i]);
  }

  /** What both top-k and top-p keep, each judged on the logits as they were before either. */
  ghost function Truncated(exp: real -> real, row: Row, k: Option<int>, p: Option<real>): (r: Row)
    requires Sum(Weights(exp, row)) > 0.0
    ensures |r| == |row|
  {
    var probs := Probs(exp, row);
    seq(|row|, i requires 0 <= i < |row| =>
      if (k.Some? ==> AmongTopK(row, k.value, i)) && (p.Some? ==> InNucleus(probs, p.value, probs[i]))
      then row[i] else NegInf)
  }

  lemma KeptAtCutoff(probs: seq<real>, row: Row, k: int, i: nat)
    requires Distribution(probs, row) && k <= |row| && i < |row|
    ensures AmongTopK(row, k, i) <==> k <= 0 || k == |row| || probs[i] >= Sorted(probs)[|row| - k]
  {
    if k == |row| {
      assert Larger(row, i) <= Upto(|row|) - {i};
      SubsetSize(Larger(row, i), Upto(|row|) - {i});
    } else if k > 0 {
      TopKCutoff(probs, row, k, i);
    }
  }

  method ApplyTopKTopP(exp: real -> real, logits: array<Logit>, k: Option<int>, p: Option<real>)
    requires Exponential(exp) && HasFinite(logits[..])
    requires k.Some? ==> k.value <= logits.Length
    modifies logits
    ensures Sum(Weights(exp, old(logits[..]))) > 0.0
    ensures logits[..] == Truncated(exp, old(logits[..]), k, p)
  {
    hide Sum, Exponential, HasFinite, Distribution, InNucleus, AmongTopK, Trues;
    ghost var row := logits[..];
    var vocab := logits.Length;
    SoftmaxDistributes(exp, logits[..]);
    var probs := Probs(exp, logits[..]);
    var sorted := Sorted(probs);
    SomeWeight(exp, row);
    if k.Some? {
      var count := vocab - k.value;
      count := if count > vocab - 1 then vocab - 1 else count;
      var cutoff := if k.value <= 0 || k.value == vocab then NegInf else Fin(sorted[count]);
      forall i | 0 <= i < vocab ensures AmongTopK(row, k.value, i) <==> !(cutoff.Fin? && probs[i] < cutoff.value) {
        KeptAtCutoff(probs, row, k.value, i);
      }
      forall i | 0 <= i < vocab && cutoff.Fin? && probs[i] < cutoff.value {
        logits[i] := NegInf;
      }
    }
    if p.Some? {
      var count := Trues(LowMask(sorted, p.value));
      TopPCutoff(probs, row, p.value, 0);
      var cutoff := sorted[count];
      forall i | 0 <= i < vocab ensures InNucleus(probs, p.value, probs[i]) <==> !(probs[i] < cutoff) {
        TopPCutoff(probs, row, p.value, i);
      }
      forall i | 0 <= i < vocab && probs[i] < cutoff {
        logits[i] := NegInf;
      }
    }
    assert logits[..] == Truncated(exp, row, k, p);
  }

  // ---- drawing ----

  /** Positive noise for every token. */
  predicate Noise(q: seq<real>) {
    forall i | 0 <= i < |q| :: q[i] > 0.0
  }

  function Over(probs: seq<real>, q: seq<real>): (r: seq<real>)
    requires |q| == |probs| && Noise(q)
    ensures |r| == |probs| && forall i | 0 <= i < |r| :: r[i] == probs[i] / q[i]
  {
    seq(|probs|, i requires 0 <= i < |probs| => probs[i] / q[i])
  }

  method RandomSample(probs: array<real>, q: seq<real>) returns (token: nat)
    requires probs.Length == |q| > 0 && Noise(q)
    modifies probs
    ensures probs[..] == Over(old(probs[..]), q) && IsArgMax(probs[..], token)
  {
    forall i | 0 <= i < probs.Length {
      probs[i] := probs[i] / q[i];
    }
    token := ArgMax(probs[..]);
  }

  /** Whatever the noise, a token without probability is not drawn. */
  lemma DrawsPossible(probs: seq<real>, row: Row, q: seq<real>, token: nat)
    requires Distribution(probs, row) && HasFinite(row) && |q| == |row| && Noise(q)
    requires IsArgMax(Over(probs, q), token)
    ensures row[token].Fin?
  {
    hide Sum;
    var i :| 0 <= i < |row| && row[i].Fin?;
    assert Over(probs, q)[i] > 0.0;
    assert Over(probs, q)[token] > 0.0;
  }

  // ---- the best token stays ----

  lemma SomeBest(exp: real -> real, row: Row) returns (i: nat)
    requires Exponential(exp) && HasFinite(row)
    ensures i < |row| && IsBest(row, i) && row[i].Fin?
  {
    hide Sum, Exponential;
    SoftmaxDistributes(exp, row);
    i := Likeliest(Probs(exp, row), Upto(|row|));
    BestIsFinite(row, i);
  }

  /** Dividing by a positive temperature keeps the order. */
  lemma TemperedBest(row: Row, temperature: real, allRandom: bool, i: nat)
    requires allRandom ==> temperature >= SAMPLING_EPS
    requires IsBest(row, i) && row[i].Fin?
    ensures IsBest(Tempered(row, temperature, allRandom), i) && Tempered(row, temperature, allRandom)[i].Fin?
  {
    var t := Divisor(temperature, allRandom);
    forall j | 0 <= j < |row| ensures Below(Divided(row[i], t), Divided(row[j], t)) <==> Below(row[i], row[j]) {
      if row[j].Fin? {
        Quotient(row[i].value, row[j].value, t);
      }
    }
  }

  lemma WeightOrder(exp: real -> real, a: Logit, b: Logit)
    requires Exponential(exp) && !Below(b, a)
    ensures Weight(exp, a) <= Weight(exp, b)
  {}

  lemma LikelyBest(exp: real -> real, row: Row, minP: Option<real>, i: nat)
    requires Exponential(exp) && Sum(Weights(exp, row)) > 0.0
    requires IsBest(row, i) && row[i].Fin? && (minP.Some? ==> minP.value <= 1.0)
    ensures IsBest(Likely(exp, row, minP), i) && Likely(exp, row, minP)[i].Fin?
  {
    hide Sum, Exponential;
    if minP.Some? {
      forall j | 0 <= j < |row| ensures Weight(exp, row[i]) >= minP.value * Weight(exp, row[j]) {
        WeightOrder(exp, row[j], row[i]);
        NotNegative(exp, row[j]);
        ScaledShare(minP.value, 1.0, Weight(exp, row[j]));
      }
    }
  }

  lemma TruncatedBest(exp: real -> real, row: Row, k: Option<int>, p: Option<real>, i: nat)
    requires Exponential(exp) && Sum(Weights(exp, row)) > 0.0
    requires IsBest(row, i) && row[i].Fin?
    ensures IsBest(Truncated(exp, row, k, p), i) && Truncated(exp, row, k, p)[i].Fin?
  {
    hide Sum, Weight, Exponential, AmongTopK, InNucleus;
    assert HasFinite(row);
    SoftmaxDistributes(exp, row);
    BestSurvives(Probs(exp, row), row, if k.Some? then k.value else 0, if p.Some? then p.value else 0.0, i);
  }

  lemma ChainDefined(exp: real -> real, row: Row, m: Metadata)
    requires Exponential(exp) && m.Fits(|row|) && HasFinite(row)
    ensures HasFinite(Tempered(row, m.temperature, m.allRandom))
    ensures Sum(Weights(exp, Tempered(row, m.temperature, m.allRandom))) > 0.0
    ensures HasFinite(Likely(exp, Tempered(row, m.temperature, m.allRandom), m.minP))
    ensures Sum(Weights(exp, Likely(exp, Tempered(row, m.temperature, m.allRandom), m.minP))) > 0.0
  {
    hide Sum, Exponential, Weight;
    var i := SomeBest(exp, row);
    TemperedBest(row, m.temperature, m.allRandom, i);
    WeightsPositive(exp, Tempered(row, m.temperature, m.allRandom));
    LikelyBest(exp, Tempered(row, m.temperature, m.allRandom), m.minP, i);
    WeightsPositive(exp, Likely(exp, Tempered(row, m.temperature, m.allRandom), m.minP));
  }

  /** The logits the random draw is made from. */
  ghost function Final(exp: real -> real, row: Row, m: Metadata): (r: Row)
    requires Exponential(exp) && m.Fits(|row|) && HasFinite(row)
    ensures |r| == |row|
  {
    ChainDefined(exp, row, m);
    Truncated(exp, Likely(exp, Tempered(row, m.temperature, m.allRandom), m.minP), m.topK, m.topP)
  }

  /** The greedy choice passes every filter and is the likeliest token of the random draw as well;
      no filter lets through what was -inf before. */
  lemma BestStays(exp: real -> real, row: Row, m: Metadata, i: nat)
    requires Exponential(exp) && m.Fits(|row|) && HasFinite(row) && IsBest(row, i)
    ensures IsBest(Final(exp, row, m), i) && HasFinite(Final(exp, row, m))
    ensures forall t | 0 <= t < |row| && Final(exp, row, m)[t].Fin? :: row[t].Fin?
  {
    hide Sum, Exponential, Weight, AmongTopK, InNucleus;
    ChainDefined(exp, row, m);
    BestIsFinite(row, i);
    TemperedBest(row, m.temperature, m.allRandom, i);
    LikelyBest(exp, Tempered(row, m.temperature, m.allRandom), m.minP, i);
    TruncatedBest(exp, Likely(exp, Tempered(row, m.temperature, m.allRandom), m.minP), m.topK, m.topP, i);
  }

  // ---- one row's token ----

  method Rebound(row: Row) returns (logits: array<Logit>)
    ensures fresh(logits) && logits[..] == row
  {
    logits := new Logit[|row|](i requires 0 <= i < |row| => row[i]);
  }

  /** Some token the model gives a finite logit is not masked. */
  ghost predicate HasChoice(row: Row, m: Metadata) {
    exists t :: 0 <= t < |row| && row[t].Fin? && !m.Masked(t)
  }

  lemma ChoiceIsFinite(row: Row, m: Metadata)
    requires m.Fits(|row|) && HasChoice(row, m)
    ensures HasFinite(Adjusted(row, m))
  {
    var t :| 0 <= t < |row| && row[t].Fin? && !m.Masked(t);
    AdjustedBans(row, m, t);
  }

  /** Masks, bias and penalties make new logits; without any of them these are the caller's. */
  method Adjust(logits: array<Logit>, m: Metadata) returns (cur: array<Logit>)
    requires m.Fits(logits.Length)
    ensures cur[..] == Adjusted(logits[..], m)
    ensures if m.Rebinds() then fresh(cur) else cur == logits
  {
    cur := logits;
    if m.allowed.Some? {
      cur := Rebound(Plus(cur[..], m.allowed));
    }
    if m.minTokens.Some? {
      cur := Rebound(Plus(cur[..], m.minTokens));
    }
    if m.badWords.Some? {
      cur := Rebound(Plus(cur[..], m.badWords));
    }
    if m.bias.Some? {
      cur := Rebound(Plus(cur[..], m.bias));
    }
    if m.penalties.Some? {
      cur := Rebound(WithPenalties(cur[..], m.penalties));
    }
  }

  method SoftmaxOf(exp: real -> real, row: Row) returns (probs: array<real>)
    requires Sum(Weights(exp, row)) > 0.0
    ensures fresh(probs) && probs[..] == Probs(exp, row)
  {
    var p := Probs(exp, row);
    probs := new real[|p|](i requires 0 <= i < |p| => p[i]);
  }

  lemma LikelyNone(exp: real -> real, row: Row)
    ensures Likely(exp, row, None) == row
  {}

  /** Filters the logits in place and draws from what is left. */
  method FilterAndDraw(exp: real -> real, cur: array<Logit>, m: Metadata, q: seq<real>) returns (token: nat)
    requires Exponential(exp) && m.Fits(cur.Length) && |q| == cur.Length && Noise(q) && HasFinite(cur[..])
    modifies cur
    ensures HasFinite(cur[..]) && Sum(Weights(exp, cur[..])) > 0.0
    ensures cur[..] == Final(exp, old(cur[..]), m)
    ensures IsArgMax(Over(Probs(exp, cur[..]), q), token) && cur[token].Fin?
  {
    hide Sum, Exponential, Weight, Likely, Truncated, Tempered, HasFinite, Distribution;
    ghost var row := cur[..];
    ChainDefined(exp, row, m);
    var best := SomeBest(exp, row);
    BestStays(exp, row, m, best);
    ApplyTemperature(cur, m.temperature, m.allRandom);
    LikelyNone(exp, cur[..]);
    if m.minP.Some? {
      ApplyMinP(exp, cur, m.minP.value);
    }
    ApplyTopKTopP(exp, cur, m.topK, m.topP);
    SoftmaxDistributes(exp, cur[..]);
    ghost var probs := Probs(exp, cur[..]);
    var p := SoftmaxOf(exp, cur[..]);
    token := RandomSample(p, q);
    DrawsPossible(probs, cur[..], q, token);
  }

  /** A greedy row takes a largest adjusted logit; any other row a place where probability over
      noise is largest, after the filters. Either way the token is not masked. With nothing to add
      to them the caller's logits are filtered in place. */
  method Sample(exp: real -> real, logits: array<Logit>, m: Metadata, q: seq<real>) returns (token: nat)
    requires Exponential(exp) && m.Fits(logits.Length) && |q| == logits.Length && Noise(q)
    requires HasChoice(logits[..], m)
    modifies logits
    ensures HasFinite(Adjusted(old(logits[..]), m)) && HasFinite(Final(exp, Adjusted(old(logits[..]), m), m))
    ensures Sum(Weights(exp, Final(exp, Adjusted(old(logits[..]), m), m))) > 0.0
    ensures m.temperature < 0.00001 ==> IsBest(Adjusted(old(logits[..]), m), token)
    ensures m.temperature >= 0.00001 ==>
              IsArgMax(Over(Probs(exp, Final(exp, Adjusted(old(logits[..]), m), m)), q), token)
    ensures token < logits.Length && old(logits[..])[token].Fin? && !m.Masked(token)
    ensures logits[..] == if m.Rebinds() then old(logits[..]) else Final(exp, Adjusted(old(logits[..]), m), m)
  {
    hide Sum, Exponential, Weight, Final, Adjusted, HasFinite;
    ghost var row := logits[..];
    ChoiceIsFinite(row, m);
    var cur := Adjust(logits, m);
    ghost var adjusted := cur[..];
    var greedy := Best(cur[..]);
    BestIsFinite(adjusted, greedy);
    ghost var best := SomeBest(exp, adjusted);
    BestStays(exp, adjusted, m, best);
    var random := FilterAndDraw(exp, cur, m, q);
    token := if m.temperature < SAMPLING_EPS then greedy else random;
    AdjustedBans(row, m, token);
  }
}
