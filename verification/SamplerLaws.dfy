/** What the steps of sampling do to a row, said of logits and parameters alone. */
module SamplerLaws {
  import opened Basics
  import opened Finite
  import opened Softmax
  import opened Truncation
  import opened Sampler

  // ---- temperature ----

  function TimesOne(l: Logit, c: real): Logit {
    if l.NegInf? then NegInf else Fin(l.value * c)
  }

  /** All logits times c. */
  function Times(row: Row, c: real): (r: Row)
    ensures |r| == |row|
    ensures forall i | 0 <= i < |r| :: r[i] == TimesOne(row[i], c)
  {
    seq(|row|, i requires 0 <= i < |row| => TimesOne(row[i], c))
  }

  lemma Cancels(x: real, c: real, t: real)
    requires c != 0.0 && t != 0.0
    ensures (x * c) / (t * c) == x / t
  {
    assert (x / t) * (t * c) == ((x / t) * t) * c == x * c;
  }

  /** Only the ratio of logits and temperature matters: times the same c > 0, the random draw sees the same row. */
  lemma TemperScaled(row: Row, temperature: real, c: real, scaled: real, allRandom: bool)
    requires c > 0.0 && temperature >= 0.00001 && scaled == temperature * c && scaled >= 0.00001
    ensures Tempered(Times(row, c), scaled, allRandom) == Tempered(row, temperature, allRandom)
  {
    forall i | 0 <= i < |row|
      ensures Tempered(Times(row, c), scaled, allRandom)[i] == Tempered(row, temperature, allRandom)[i]
    {
      if row[i].Fin? {
        Cancels(row[i].value, c, temperature);
      }
    }
  }

  /** So the filters drop the same tokens, and the rest have the same probabilities. */
  lemma FinalScaled(exp: real -> real, row: Row, m: Metadata, c: real)
    requires Exponential(exp) && m.Fits(|row|) && HasFinite(row)
    requires c > 0.0 && m.temperature >= 0.00001 && m.temperature * c >= 0.00001
    ensures m.(temperature := m.temperature * c).Fits(|row|) && HasFinite(Times(row, c))
    ensures Final(exp, Times(row, c), m.(temperature := m.temperature * c)) == Final(exp, row, m)
  {
    hide Likely, Truncated, Tempered, Sum, Exponential;
    var i :| 0 <= i < |row| && row[i].Fin?;
    assert Times(row, c)[i].Fin?;
    var n := m.(temperature := m.temperature * c);
    TemperScaled(row, m.temperature, c, n.temperature, m.allRandom);
    ChainDefined(exp, row, m);
    ChainDefined(exp, Times(row, c), n);
    assert Tempered(Times(row, c), n.temperature, n.allRandom) == Tempered(row, m.temperature, m.allRandom);
  }

  /** Temperature 1.0 changes nothing. */
  lemma TemperOne(row: Row, allRandom: bool)
    ensures Tempered(row, 1.0, allRandom) == row
  {
    forall i | 0 <= i < |row| ensures Tempered(row, 1.0, allRandom)[i] == row[i] {
      if row[i].Fin? {
        assert row[i].value / 1.0 == row[i].value;
      }
    }
  }

  /** A greedy row of a mixed batch is left as it is. */
  lemma GreedyUntouched(row: Row, temperature: real)
    requires temperature < 0.00001
    ensures Tempered(row, temperature, false) == row
  {
    TemperOne(row, false);
  }

  // ---- masks, bias and penalties ----

  /** A mask as the metadata builds it: -inf where it bans, 0.0 elsewhere. */
  predicate Plain(mask: Option<Row>) {
    mask.Some? ==> forall t | 0 <= t < |mask.value| :: mask.value[t] == NegInf || mask.value[t] == Fin(0.0)
  }

  /** A token that is not masked gets exactly its bias, and its penalties after that. */
  lemma BiasAdds(row: Row, m: Metadata, t: nat)
    requires m.Fits(|row|) && t < |row| && row[t].Fin? && !m.Masked(t)
    requires Plain(m.allowed) && Plain(m.minTokens) && Plain(m.badWords)
    ensures var biased := Fin(row[t].value + if m.bias.Some? then m.bias.value[t].value else 0.0);
            Adjusted(row, m)[t]
            == match m.penalties
               case None => biased
               case Some(p) => Penalized(biased, p.counts[t], p.prompt[t], p)
  {
    var a := Plus(row, m.allowed);
    var b := Plus(a, m.minTokens);
    var c := Plus(b, m.badWords);
    assert a[t] == row[t] && b[t] == row[t] && c[t] == row[t];
  }

  /** Each further occurrence in the output costs the frequency penalty. */
  lemma FrequencyCosts(l: Logit, count: nat, prompt: bool, p: Penalties)
    requires p.repetition > 0.0 && l.Fin? && count > 0
    ensures Penalized(l, count + 1, prompt, p).value == Penalized(l, count, prompt, p).value - p.frequency
  {
    assert p.frequency * (count + 1) as real == p.frequency * count as real + p.frequency;
  }

  /** The first one costs a token of the prompt the frequency and the presence penalty. */
  lemma PresenceCosts(l: Logit, p: Penalties)
    requires p.repetition > 0.0 && l.Fin?
    ensures Penalized(l, 1, true, p).value == Penalized(l, 0, true, p).value - p.frequency - p.presence
  {}

  /** An occurrence in the output is penalized for repetition as one in the prompt is. */
  lemma OutputRepeats(l: Logit, count: nat, p: Penalties)
    requires p.repetition > 0.0 && count > 0
    ensures Penalized(l, count, false, p) == Penalized(l, count, true, p)
  {}

  /** Repetition divides what is positive, and multiplies the rest. */
  lemma RepetitionCosts(l: Logit, p: Penalties)
    requires p.repetition > 0.0 && l.Fin?
    ensures l.value > 0.0 ==> Penalized(l, 0, true, p).value * p.repetition == l.value
    ensures l.value <= 0.0 ==> Penalized(l, 0, true, p).value == l.value * p.repetition
  {
    assert l.value * (1.0 / p.repetition) * p.repetition == l.value;
  }

  // ---- filters ----

  /** Min-p keeps a token exactly when its probability is at least that share of everybody's. */
  lemma MinPKeeps(exp: real -> real, row: Row, share: real, i: nat)
    requires Exponential(exp) && Sum(Weights(exp, row)) > 0.0 && i < |row| && row[i].Fin?
    ensures Likely(exp, row, Some(share))[i] == row[i]
            <==> forall j | 0 <= j < |row| :: Probs(exp, row)[i] >= share * Probs(exp, row)[j]
  {
    hide Sum, Exponential, Weight;
    var t := Sum(Weights(exp, row));
    forall j | 0 <= j < |row|
      ensures Weight(exp, row[i]) < share * Weight(exp, row[j])
              <==> Probs(exp, row)[i] < share * Probs(exp, row)[j]
    {
      ScaledOrder(Weight(exp, row[i]), Weight(exp, row[j]), share, t);
    }
  }

  lemma {:induction false} MassIs(probs: seq<real>, x: real, likelier: seq<real>)
    requires |likelier| == |probs|
    requires forall j | 0 <= j < |probs| :: likelier[j] == if probs[j] > x then probs[j] else 0.0
    ensures MassAbove(probs, x) == Sum(likelier)
  {
    if probs != [] {
      var n := |probs| - 1;
      MassIs(probs[..n], x, likelier[..n]);
      assert MassAbove(probs, x) == MassAbove(probs[..n], x) + Above(Id(), x)(probs[n]);
    }
  }

  /** Top-k and top-p keep a token when fewer than k logits are larger, and when the likelier tokens' probabilities add
      up to less than p; a k of 0 or less, and tokens that nothing is likelier than, always stay. */
  lemma TruncatedKeeps(exp: real -> real, row: Row, k: Option<int>, p: Option<real>, i: nat, likelier: seq<real>)
    requires Sum(Weights(exp, row)) > 0.0 && i < |row| == |likelier|
    requires forall j | 0 <= j < |row| ::
               likelier[j] == if Probs(exp, row)[j] > Probs(exp, row)[i] then Probs(exp, row)[j] else 0.0
    ensures var larger := set j: nat | j < |row| && row[j].Fin? && (row[i].Fin? ==> row[i].value < row[j].value);
            Truncated(exp, row, k, p)[i]
            == if (k.Some? ==> k.value <= 0 || |larger| < k.value)
                  && (p.Some? ==> Sum(likelier) < p.value || Sum(likelier) <= 0.0) then row[i] else NegInf
  {
    hide Sum, Weight;
    MassIs(Probs(exp, row), Probs(exp, row)[i], likelier);
    var larger := set j: nat | j < |row| && row[j].Fin? && (row[i].Fin? ==> row[i].value < row[j].value);
    assert larger == Larger(row, i);
  }

  /** Nothing beats the token that is drawn: every other has at most its probability for the same noise. */
  lemma DrawnBeats(probs: seq<real>, q: seq<real>, token: nat, j: nat)
    requires |q| == |probs| && Noise(q) && IsArgMax(Over(probs, q), token) && j < |probs|
    ensures probs[j] * q[token] <= probs[token] * q[j]
  {
    var a, b := probs[token] / q[token], probs[j] / q[j];
    assert b <= a;
    assert b * (q[j] * q[token]) <= a * (q[j] * q[token]);
    assert b * (q[j] * q[token]) == (b * q[j]) * q[token] == probs[j] * q[token];
    assert a * (q[j] * q[token]) == (a * q[token]) * q[j] == probs[token] * q[j];
  }

  /** Of the tokens top-k keeps, fewer than k are better than the worst of them. */
  lemma TopKDropsTies(row: Row, k: nat, least: nat)
    requires 0 < k <= |row| && least < |row| && AmongTopK(row, k, least)
    ensures |set j: nat | j < |row| && AmongTopK(row, k, j) && Below(row[least], row[j])| < k
  {
    var better := set j: nat | j < |row| && Below(row[least], row[j]);
    assert better == Larger(row, least);
    var kept := set j: nat | j < |row| && AmongTopK(row, k, j) && Below(row[least], row[j]);
    SubsetSize(kept, better);
  }
}
