/** A2aSparseMLP end to end: its output is the mixture the per-expert loop computes. */
module A2aOutput {
  import opened Tensors
  import opened Experts
  import opened MoeOps
  import opened Tiles
  import opened A2aForward
  import opened FusedScope
  import opened MoeRouting

  /** The choices of token (b, s), as a list. */
  function Choices(ids: Tensor<int>, K: nat, b: nat, s: nat): (r: seq<int>)
    requires ids.Valid() && |ids.shape| == 3 && ids.shape[2] == K && b < ids.shape[0] && s < ids.shape[1]
    ensures |r| == K && forall k :: 0 <= k < K ==> r[k] == At3(ids, b, s, k)
  {
    seq(K, k requires 0 <= k < K => At3(ids, b, s, k))
  }

  /** The rows a combine fetched for token (b, s), as a list. */
  function Fetch(combined: Tensor<Vec>, decode: bool, K: nat, b: nat, s: nat): (r: seq<Vec>)
    requires combined.Valid() && forall k: nat | k < K :: InToken(combined.shape, decode, k, b, s)
    ensures |r| == K && forall k :: 0 <= k < K ==> r[k] == AtToken(combined, decode, k, b, s)
  {
    seq(K, k requires 0 <= k < K => AtToken(combined, decode, k, b, s))
  }

  /** The router's output, next to a batch: full score rows, zero outside the distinct choices. */
  ghost predicate Scored(p: Pass, bank: Bank, x: Tensor<Vec>, ids: Tensor<int>, scores: Tensor<Vec>) {
    && p.Accepts(bank, x, ids)
    && scores.Valid() && scores.shape == [p.B, p.S]
    && forall b: nat, s: nat | b < p.B && s < p.S ::
         |At2(scores, b, s)| == |bank.gateUp|
         && Routing(Choices(ids, p.K, b, s), At2(scores, b, s), |bank.gateUp|)
  }

  lemma ScoredIsValid(p: Pass, bank: Bank, x: Tensor<Vec>, ids: Tensor<int>, scores: Tensor<Vec>)
    requires Scored(p, bank, x, ids, scores)
    ensures ValidRouting(p, ids, |bank.gateUp|)
  {
    forall b: nat, s: nat, k: nat, k': nat | b < p.B && s < p.S && k < k' < p.K
      ensures At3(ids, b, s, k) != At3(ids, b, s, k')
    {
      var choices := Choices(ids, p.K, b, s);
      assert Routing(choices, At2(scores, b, s), |bank.gateUp|);
      assert At3(ids, b, s, k) == ids.data[Flat(ids.shape, [b, s, k])] == choices[k];
    }
  }

  /** The whole forward pass: expert outputs on some path, weighted and summed over the choices. */
  method Forward(p: Pass, bank: Bank, x: Tensor<Vec>, logits: Tensor<real>, ids: Tensor<int>, scores: Tensor<Vec>,
                 path: Path)
    returns (output: Tensor<Vec>)
    requires Scored(p, bank, x, ids, scores) && p.Logits(bank, logits)
    requires path.Fused? ==> FusedFits(p, |bank.gateUp|)
    ensures output.Valid() && output.shape == [p.B, p.S]
    ensures forall b: nat, s: nat | b < p.B && s < p.S ::
              Token(bank, At2(x, b, s), At2(scores, b, s))
              && At2(output, b, s) == Mixture(bank, At2(x, b, s), At2(scores, b, s))
  {
    hide FusedFits, ValidRouting;
    ScoredIsValid(p, bank, x, ids, scores);
    var decode, combined := ExpertOutputs(p, bank, x, logits, ids, path);
    forall b: nat, s: nat | b < p.B && s < p.S
      ensures Token(bank, At2(x, b, s), At2(scores, b, s))
      ensures forall k: nat | k < p.K :: InToken(combined.shape, decode, k, b, s)
      ensures FetchedRows(bank, At2(x, b, s), At2(scores, b, s), Fetch(combined, decode, p.K, b, s),
                          Choices(ids, p.K, b, s))
    {
      RowsAt2(x, bank.hidden, b, s);
      forall k: nat | k < p.K
        ensures 0 <= At3(ids, b, s, k) < |bank.gateUp|
        ensures AtToken(combined, decode, k, b, s) == Expert(bank, At3(ids, b, s, k), At2(x, b, s))
      {
        PathsAgree(p, bank, x, ids, path, k, b, s);
      }
    }
    output := Build2(p.B, p.S, (b: nat, s: nat) requires b < p.B && s < p.S =>
      assert FetchedRows(bank, At2(x, b, s), At2(scores, b, s), Fetch(combined, decode, p.K, b, s),
                         Choices(ids, p.K, b, s));
      TopKSum(bank.hidden, Fetch(combined, decode, p.K, b, s), Choices(ids, p.K, b, s), At2(scores, b, s), p.K));
    forall b: nat, s: nat | b < p.B && s < p.S
      ensures At2(output, b, s) == Mixture(bank, At2(x, b, s), At2(scores, b, s))
    {
      TopKIsMixture(bank, At2(x, b, s), At2(scores, b, s), Fetch(combined, decode, p.K, b, s), Choices(ids, p.K, b, s));
    }
  }
}
