/** What may not be sampled: the masks sampling metadata builds from a batch. */
module SamplingMasks {
  import opened Basics
  import opened Softmax

  type Token = int

  // ---- what the masks mean ----

  /** word stands in output, from place i. */
  predicate OccursAt(output: seq<Token>, word: seq<Token>, i: nat) {
    i + |word| <= |output| && output[i..i + |word|] == word
  }

  /** Choosing token next would end the output with this bad word. */
  predicate Completes(word: seq<Token>, past: seq<Token>, token: Token) {
    0 < |word| <= |past| + 1 && OccursAt(past + [token], word, |past| + 1 - |word|)
  }

  /** Choosing token next would end the output with one of the bad words. */
  ghost predicate CompletesAny(words: seq<seq<Token>>, past: seq<Token>, token: Token) {
    exists w :: 0 <= w < |words| && Completes(words[w], past, token)
  }

  datatype MinTokens = MinTokens(count: nat, stops: set<Token>)

  /** token would stop the request before its least number of output tokens. */
  predicate TooEarly(least: MinTokens, past: seq<Token>, token: Token) {
    |past| < least.count && token in least.stops
  }

  // ---- whole runs ----

  /** No bad word stands anywhere in the output. */
  ghost predicate FreeOf(words: seq<seq<Token>>, output: seq<Token>) {
    forall w, i: nat | 0 <= w < |words| && words[w] != [] :: !OccursAt(output, words[w], i)
  }

  /** Every token of the output was free to be sampled when its turn came. */
  ghost predicate Sampled(words: seq<seq<Token>>, least: MinTokens, output: seq<Token>) {
    forall i | 0 <= i < |output| ::
      !CompletesAny(words, output[..i], output[i]) && !TooEarly(least, output[..i], output[i])
  }

  /** No part of the output is a bad word. */
  lemma FreeOfIs(words: seq<seq<Token>>, output: seq<Token>)
    ensures FreeOf(words, output) <==>
            forall w, i, j | 0 <= w < |words| && words[w] != [] && 0 <= i <= j <= |output| :: output[i..j] != words[w]
  {
    if FreeOf(words, output) {
      forall w, i, j | 0 <= w < |words| && words[w] != [] && 0 <= i <= j <= |output| ensures output[i..j] != words[w] {
        assert !OccursAt(output, words[w], i);
      }
    } else {
      var w, i: nat :| 0 <= w < |words| && words[w] != [] && OccursAt(output, words[w], i);
      assert output[i..i + |words[w]|] == words[w];
    }
  }

  lemma CompletesHere(word: seq<Token>, output: seq<Token>, i: nat)
    requires i < |output|
    ensures Completes(word, output[..i], output[i]) <==>
            0 < |word| <= i + 1 && OccursAt(output, word, i + 1 - |word|)
  {
    assert output[..i] + [output[i]] == output[..i + 1];
    if 0 < |word| <= i + 1 {
      assert output[..i + 1][i + 1 - |word|..i + 1] == output[i + 1 - |word|..i + 1];
    }
  }

  /** Banning only the tokens that would complete a bad word, at each step, keeps every bad word
      out of the whole output; banning the stop tokens keeps the output from ending too early. No
      other output is ruled out. */
  lemma {:induction false} OutputIsClean(words: seq<seq<Token>>, least: MinTokens, output: seq<Token>)
    ensures Sampled(words, least, output) <==>
            FreeOf(words, output) && forall i | 0 <= i < |output| && i < least.count :: output[i] !in least.stops
  {
    forall i | 0 <= i < |output|
      ensures TooEarly(least, output[..i], output[i]) <==> i < least.count && output[i] in least.stops
    {}
    forall i, w | 0 <= i < |output| && 0 <= w < |words|
      ensures Completes(words[w], output[..i], output[i]) <==>
              0 < |words[w]| <= i + 1 && OccursAt(output, words[w], i + 1 - |words[w]|)
    {
      CompletesHere(words[w], output, i);
    }
    if Sampled(words, least, output) {
      forall w, i: nat | 0 <= w < |words| && words[w] != [] ensures !OccursAt(output, words[w], i) {
        var last := i + |words[w]| - 1;
        assert last < |output| ==> !CompletesAny(words, output[..last], output[last]);
        assert last < |output| ==> !Completes(words[w], output[..last], output[last]);
      }
    }
  }

  // ---- bad words ----

  function Past(outputs: seq<Option<seq<Token>>>, r: nat): seq<Token> {
    if r < |outputs| && outputs[r].Some? then outputs[r].value else []
  }

  function Ban(banned: bool): Logit {
    if banned then NegInf else Fin(0.0)
  }

  method Zeros(rows: nat, vocab: nat) returns (mask: array2<Logit>)
    ensures fresh(mask) && mask.Length0 == rows && mask.Length1 == vocab
    ensures forall r, t | 0 <= r < rows && 0 <= t < vocab :: mask[r, t] == Fin(0.0)
  {
    mask := new Logit[rows, vocab]((r, t) => Fin(0.0));
  }

  ghost predicate BadWord(badWords: map<nat, seq<seq<Token>>>, outputs: seq<Option<seq<Token>>>, r: nat, t: Token) {
    r in badWords && CompletesAny(badWords[r], Past(outputs, r), t)
  }

  /** Only entries a request of done may touch differ from 0.0, and those are -inf exactly as B says. */
  ghost predicate Shows(mask: array2<Logit>, done: set<nat>, B: (nat, Token) -> bool)
    reads mask
  {
    forall r, t | 0 <= r < mask.Length0 && 0 <= t < mask.Length1 :: mask[r, t] == Ban(r in done && B(r, t))
  }

  lemma MoreWords(words: seq<seq<Token>>, w: nat, past: seq<Token>, t: Token)
    requires w < |words|
    ensures CompletesAny(words[..w + 1], past, t) <==> CompletesAny(words[..w], past, t) || Completes(words[w], past, t)
  {
    if CompletesAny(words[..w], past, t) {
      var v :| 0 <= v < w && Completes(words[..w][v], past, t);
      assert words[..w + 1][v] == words[..w][v];
    }
    assert words[..w + 1][w] == words[w];
    if CompletesAny(words[..w + 1], past, t) && !Completes(words[w], past, t) {
      var v :| 0 <= v < w + 1 && Completes(words[..w + 1][v], past, t);
      assert words[..w][v] == words[..w + 1][v];
    }
  }

  /** What the code compares: the last entry, and the ones before it with the end of the past. */
  lemma CompletesByPrefix(word: seq<Token>, past: seq<Token>, t: Token)
    ensures Completes(word, past, t) <==>
            0 < |word| <= |past| + 1 && word[|word| - 1] == t && past[|past| + 1 - |word|..] == word[..|word| - 1]
  {
    if 0 < |word| <= |past| + 1 {
      var end := past[|past| + 1 - |word|..];
      assert (past + [t])[|past| + 1 - |word|..|past| + 1] == end + [t];
      assert word == word[..|word| - 1] + [word[|word| - 1]];
      if end + [t] == word {
        assert end == (end + [t])[..|word| - 1];
      }
    }
  }

  /** No word ends in a negative id, which would index from the other end. */
  ghost predicate Indexable(words: seq<seq<Token>>) {
    forall w | 0 <= w < |words| && words[w] != [] :: words[w][|words[w]| - 1] >= 0
  }

  lemma IndexableWhen(words: seq<seq<Token>>)
    requires forall w, i | 0 <= w < |words| && 0 <= i < |words[w]| :: words[w][i] >= 0
    ensures Indexable(words)
  {}

  /** One request's row. */
  method BanWords(mask: array2<Logit>, req: nat, words: seq<seq<Token>>, past: seq<Token>)
    requires req < mask.Length0 && forall t | 0 <= t < mask.Length1 :: mask[req, t] == Fin(0.0)
    requires Indexable(words)
    modifies mask
    ensures forall r, t | 0 <= r < mask.Length0 && 0 <= t < mask.Length1 && r != req :: mask[r, t] == old(mask[r, t])
    ensures forall t | 0 <= t < mask.Length1 :: mask[req, t] == Ban(CompletesAny(words, past, t))
  {
    for w := 0 to |words|
      invariant forall r, t | 0 <= r < mask.Length0 && 0 <= t < mask.Length1 && r != req ::
                mask[r, t] == old(mask[r, t])
      invariant forall t | 0 <= t < mask.Length1 :: mask[req, t] == Ban(CompletesAny(words[..w], past, t))
    {
      var word := words[w];
      forall t | 0 <= t < mask.Length1
        ensures CompletesAny(words[..w + 1], past, t) == (CompletesAny(words[..w], past, t) || Completes(word, past, t))
      {
        MoreWords(words, w, past, t);
      }
      forall t | 0 <= t < mask.Length1
        ensures Completes(word, past, t) <==>
                0 < |word| <= |past| + 1 && word[|word| - 1] == t && past[|past| + 1 - |word|..] == word[..|word| - 1]
      {
        CompletesByPrefix(word, past, t);
      }
      if |word| == 0 {
        continue;
      }
      if |word| > |past| + 1 {
        continue;
      }
      var last := word[|word| - 1];
      if last >= mask.Length1 {
        continue;
      }
      var prefix := |word| - 1;
      if prefix == 0 {
        mask[req, last] := NegInf;
      } else if past[|past| - prefix..] == word[..prefix] {
        mask[req, last] := NegInf;
      }
    }
    assert words[..|words|] == words;
  }

  /** -inf exactly where the token would complete one of the request's bad words, 0.0 elsewhere. */
  method BadWordsMask(badWords: map<nat, seq<seq<Token>>>, outputs: seq<Option<seq<Token>>>, padded: nat, vocab: nat)
    returns (mask: array2<Logit>)
    requires forall r | r in badWords :: Indexable(badWords[r])
    ensures mask.Length0 == padded && mask.Length1 == vocab
    ensures forall r, t | 0 <= r < padded && 0 <= t < vocab :: mask[r, t] == Ban(BadWord(badWords, outputs, r, t))
  {
    hide CompletesAny;
    mask := Zeros(padded, vocab);
    ghost var bad := (r: nat, t: Token) => BadWord(badWords, outputs, r, t);
    var todo := badWords.Keys;
    while todo != {}
      invariant todo <= badWords.Keys && fresh(mask) && mask.Length0 == padded && mask.Length1 == vocab
      invariant Shows(mask, badWords.Keys - todo, bad)
      decreases todo
    {
      var req :| req in todo;
      todo := todo - {req};
      if req < padded {
        BanWords(mask, req, badWords[req], Past(outputs, req));
      }
    }
    forall r, t | 0 <= r < padded && 0 <= t < vocab ensures mask[r, t] == Ban(BadWord(badWords, outputs, r, t)) {
      assert bad(r, t) == BadWord(badWords, outputs, r, t);
    }
  }

  // ---- least number of tokens ----

  predicate Early(least: map<nat, MinTokens>, outputs: seq<Option<seq<Token>>>, r: nat, t: Token) {
    r in least && TooEarly(least[r], Past(outputs, r), t)
  }

  method BanAll(mask: array2<Logit>, req: nat, stops: set<Token>)
    requires req < mask.Length0 && forall t | 0 <= t < mask.Length1 :: mask[req, t] == Fin(0.0)
    requires forall t | t in stops :: t >= 0
    modifies mask
    ensures forall r, t | 0 <= r < mask.Length0 && 0 <= t < mask.Length1 && r != req :: mask[r, t] == old(mask[r, t])
    ensures forall t | 0 <= t < mask.Length1 :: mask[req, t] == Ban(t in stops)
  {
    var todo: set<nat> := stops;
    while todo != {}
      invariant todo <= stops
      invariant forall r, t | 0 <= r < mask.Length0 && 0 <= t < mask.Length1 && r != req ::
                mask[r, t] == old(mask[r, t])
      invariant forall t | 0 <= t < mask.Length1 :: mask[req, t] == Ban(t in stops - todo)
      decreases todo
    {
      var token :| token in todo;
      todo := todo - {token};
      if token < mask.Length1 {
        mask[req, token] := NegInf;
      }
    }
  }

  /** -inf exactly on the stop tokens of the requests still below their least count. */
  method MinTokensMask(least: map<nat, MinTokens>, outputs: seq<Option<seq<Token>>>, padded: nat, vocab: nat)
    returns (mask: array2<Logit>)
    requires forall r | r in least && r < padded :: r < |outputs|
    requires forall r, t | r in least && t in least[r].stops :: t >= 0
    ensures mask.Length0 == padded && mask.Length1 == vocab
    ensures forall r, t | 0 <= r < padded && 0 <= t < vocab :: mask[r, t] == Ban(Early(least, outputs, r, t))
  {
    mask := Zeros(padded, vocab);
    ghost var early := (r: nat, t: Token) => Early(least, outputs, r, t);
    var todo := least.Keys;
    while todo != {}
      invariant todo <= least.Keys && fresh(mask) && mask.Length0 == padded && mask.Length1 == vocab
      invariant Shows(mask, least.Keys - todo, early)
      decreases todo
    {
      var req :| req in todo;
      todo := todo - {req};
      if req < padded && |Past(outputs, req)| < least[req].count {
        BanAll(mask, req, least[req].stops);
      }
    }
    forall r, t | 0 <= r < padded && 0 <= t < vocab ensures mask[r, t] == Ban(Early(least, outputs, r, t)) {
      assert early(r, t) == Early(least, outputs, r, t);
    }
  }

  // ---- allowed tokens ----

  /** The batch's bool mask, true where disallowed, as a mask to add. */
  method AllowedMask(disallowed: array2<bool>, padded: nat, vocab: nat) returns (mask: array2<Logit>)
    requires padded <= disallowed.Length0 && vocab == disallowed.Length1
    ensures mask.Length0 == padded && mask.Length1 == vocab
    ensures forall r, t | 0 <= r < padded && 0 <= t < vocab :: mask[r, t] == Ban(disallowed[r, t])
  {
    mask := Zeros(padded, vocab);
    forall r, t | 0 <= r < padded && 0 <= t < vocab && disallowed[r, t] {
      mask[r, t] := NegInf;
    }
  }

  // ---- what has occurred ----

  method CountTokens(counts: array2<nat>, r: nat, tokens: seq<Token>)
    requires r < counts.Length0 && forall t | 0 <= t < counts.Length1 :: counts[r, t] == 0
    requires forall i | 0 <= i < |tokens| :: 0 <= tokens[i] < counts.Length1
    modifies counts
    ensures forall s, t | 0 <= s < counts.Length0 && 0 <= t < counts.Length1 ::
              counts[s, t] == if s == r then multiset(tokens)[t] else old(counts[s, t])
  {
    for i := 0 to |tokens|
      invariant forall s, t | 0 <= s < counts.Length0 && 0 <= t < counts.Length1 ::
          counts[s, t] == if s == r then multiset(tokens[..i])[t] else old(counts[s, t])
    {
      assert tokens[..i + 1] == tokens[..i] + [tokens[i]];
      counts[r, tokens[i]] := counts[r, tokens[i]] + 1;
    }
    assert tokens[..|tokens|] == tokens;
  }

  /** How often each token occurs in the output so far. */
  method TokenCounts(outputs: seq<Option<seq<Token>>>, padded: nat, vocab: nat) returns (counts: array2<nat>)
    requires forall r | 0 <= r < |outputs| && r < padded && outputs[r].Some? ::
               forall i | 0 <= i < |outputs[r].value| :: 0 <= outputs[r].value[i] < vocab
    ensures counts.Length0 == padded && counts.Length1 == vocab
    ensures forall r, t | 0 <= r < padded && 0 <= t < vocab :: counts[r, t] == multiset(Past(outputs, r))[t]
  {
    counts := new nat[padded, vocab]((r, t) => 0);
    for r := 0 to if |outputs| < padded then |outputs| else padded
      invariant fresh(counts) && counts.Length0 == padded && counts.Length1 == vocab
      invariant forall s, t | 0 <= s < padded && 0 <= t < vocab ::
          counts[s, t] == if s < r then multiset(Past(outputs, s))[t] else 0
    {
      if outputs[r].Some? {
        CountTokens(counts, r, outputs[r].value);
      }
    }
  }

  /** Which tokens occur in a row's first prompt-count ids. Rows past the batch keep whatever counts
      they hold: nothing clears them. */
  method PromptMask(promptCounts: seq<nat>, ids: array2<nat>, padded: nat, vocab: nat) returns (mask: array2<bool>)
    requires padded <= |promptCounts| && padded <= ids.Length0
    requires forall r | 0 <= r < padded :: promptCounts[r] <= ids.Length1
    ensures mask.Length0 == padded && mask.Length1 == vocab
    ensures forall r, t | 0 <= r < padded && 0 <= t < vocab ::
              mask[r, t] <==> exists c :: 0 <= c < promptCounts[r] && ids[r, c] == t
  {
    mask := new bool[padded, vocab]((r, t) => false);
    for r := 0 to padded
      invariant fresh(mask) && mask.Length0 == padded && mask.Length1 == vocab
      invariant forall s, t | 0 <= s < padded && 0 <= t < vocab ::
          mask[s, t] <==> s < r && exists c :: 0 <= c < promptCounts[s] && ids[s, c] == t
    {
      for c := 0 to promptCounts[r]
        invariant fresh(mask) && mask.Length0 == padded && mask.Length1 == vocab
        invariant forall s, t | 0 <= s < padded && 0 <= t < vocab ::
            mask[s, t] <==> (s < r && exists d :: 0 <= d < promptCounts[s] && ids[s, d] == t)
                            || (s == r && exists d :: 0 <= d < c && ids[s, d] == t)
      {
        if ids[r, c] < vocab {
          mask[r, ids[r, c]] := true;
        }
      }
    }
  }
}
