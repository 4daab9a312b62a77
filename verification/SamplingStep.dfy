/** From the batch's bans to the sampled token: the metadata's masks, then the sampler. */
module SamplingStep {
  import opened Basics
  import opened Softmax
  import opened SamplingMasks
  import opened Sampler

  /** What the batch holds for its masks; disallowed is true where a token is not allowed. */
  datatype Bans = Bans(
    anyAllowed: bool, disallowed: array2<bool>, least: map<nat, MinTokens>,
    badWords: map<nat, seq<seq<Token>>>, outputs: seq<Option<seq<Token>>>)

  ghost predicate Fits(b: Bans, padded: nat, vocab: nat) {
    && padded <= b.disallowed.Length0 && vocab == b.disallowed.Length1
    && (forall r | r in b.least && r < padded :: r < |b.outputs|)
    && (forall r, t | r in b.least && t in b.least[r].stops :: t >= 0)
    && (forall r | r in b.badWords :: Indexable(b.badWords[r]))
  }

  /** The request in row r may not produce t now. */
  ghost predicate Banned(b: Bans, r: nat, t: Token)
    requires r < b.disallowed.Length0 && 0 <= t < b.disallowed.Length1
    reads b.disallowed
  {
    (b.anyAllowed && b.disallowed[r, t]) || Early(b.least, b.outputs, r, t) || BadWord(b.badWords, b.outputs, r, t)
  }

  /** A row of a mask, if there is one. */
  method MaskRow(mask: Option<array2<Logit>>, r: nat) returns (row: Option<Row>)
    requires mask.Some? ==> r < mask.value.Length0
    ensures mask.None? <==> row.None?
    ensures mask.Some? ==> |row.value| == mask.value.Length1
    ensures mask.Some? ==> forall t | 0 <= t < mask.value.Length1 :: row.value[t] == mask.value[r, t]
  {
    if mask.None? {
      return None;
    }
    row := Some(seq(mask.value.Length1, t requires 0 <= t < mask.value.Length1 reads mask.value => mask.value[r, t]));
  }

  method AnyBelow(least: map<nat, MinTokens>, outputs: seq<Option<seq<Token>>>, padded: nat) returns (any: bool)
    requires forall r | r in least && r < padded :: r < |outputs|
    ensures any <==> exists r :: r in least && r < padded && |Past(outputs, r)| < least[r].count
  {
    any := false;
    var todo := least.Keys;
    while todo != {}
      invariant todo <= least.Keys
      invariant any <==> exists r :: r in least.Keys - todo && r < padded && |Past(outputs, r)| < least[r].count
      decreases todo
    {
      var req :| req in todo;
      todo := todo - {req};
      if req < padded && |Past(outputs, req)| < least[req].count {
        any := true;
      }
    }
  }

  /** The masks of one row: a mask that would ban nothing may be missing, and together they block
      exactly what is banned. */
  method RowMasks(b: Bans, padded: nat, vocab: nat, r: nat)
    returns (allowed: Option<Row>, minTokens: Option<Row>, badWords: Option<Row>)
    requires Fits(b, padded, vocab) && r < padded
    ensures (allowed.Some? ==> |allowed.value| == vocab) && (minTokens.Some? ==> |minTokens.value| == vocab)
    ensures badWords.Some? ==> |badWords.value| == vocab
    ensures forall t | 0 <= t < vocab ::
              Banned(b, r, t) <==> Blocks(allowed, t) || Blocks(minTokens, t) || Blocks(badWords, t)
  {
    hide CompletesAny;
    allowed, minTokens, badWords := None, None, None;
    if b.badWords != map[] {
      var mask := BadWordsMask(b.badWords, b.outputs, padded, vocab);
      badWords := MaskRow(Some(mask), r);
    }
    if b.anyAllowed {
      var mask := AllowedMask(b.disallowed, padded, vocab);
      allowed := MaskRow(Some(mask), r);
    }
    var below := AnyBelow(b.least, b.outputs, padded);
    if below {
      var mask := MinTokensMask(b.least, b.outputs, padded, vocab);
      minTokens := MaskRow(Some(mask), r);
    }
  }

  /** A row that still has a token to choose never gets a banned one, greedy or random, whatever
      its bias, penalties, filters and noise. */
  method NextToken(exp: real -> real, b: Bans, padded: nat, r: nat, logits: array<Logit>, m: Metadata, q: seq<real>)
    returns (token: nat)
    requires Exponential(exp) && Fits(b, padded, logits.Length) && r < padded
    requires m.Fits(logits.Length) && |q| == logits.Length && Noise(q)
    requires exists t :: 0 <= t < logits.Length && logits[t].Fin? && !Banned(b, r, t)
    modifies logits
    ensures token < logits.Length && !Banned(b, r, token) && old(logits[..])[token].Fin?
  {
    hide Exponential, Banned;
    var allowed, minTokens, badWords := RowMasks(b, padded, logits.Length, r);
    var n := m.(allowed := allowed, minTokens := minTokens, badWords := badWords);
    assert forall t | 0 <= t < logits.Length :: n.Masked(t) <==> Banned(b, r, t);
    token := Sample(exp, logits, n, q);
  }
}
