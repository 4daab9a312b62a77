/** The two modules whose tiles are single tokens: SparseMLP on one device, and A2aSparseStackedMlp. */
module TokenMlp {
  import opened Tensors
  import opened Experts
  import opened MoeOps
  import opened Tiles
  import opened TileMasks
  import opened A2aMlp
  import opened A2aForward
  import opened FusedScope
  import opened MoeRouting
  import opened A2aOutput
  import opened StackedMlp

  /** The choices of every token and their compact weights. */
  ghost predicate Weighted(bank: Bank, x: Tensor<Vec>, ids: Tensor<int>, weights: Tensor<Vec>, B: nat, S: nat, K: nat) {
    && bank.Valid() && Batch(x, ids, B, S, K) && Rows(x, bank.hidden) && ExpertIds(ids, |bank.gateUp|)
    && weights.Valid() && weights.shape == [B, S] && Rows(weights, K)
  }

  lemma ChoicesAreExperts(ids: Tensor<int>, experts: nat, K: nat, b: nat, s: nat)
    requires ids.Valid() && |ids.shape| == 3 && ids.shape[2] == K && b < ids.shape[0] && s < ids.shape[1]
    requires ExpertIds(ids, experts)
    ensures forall k :: 0 <= k < K ==> 0 <= Choices(ids, K, b, s)[k] < experts
  {
    forall k | 0 <= k < K ensures 0 <= Choices(ids, K, b, s)[k] < experts {
      assert At3(ids, b, s, k) == ids.data[Flat(ids.shape, [b, s, k])];
    }
  }

  // ---- SparseMLP: every expert's row, weighted by the scattered scores ----

  /** Every expert's output for token (b, s), times its score. */
  function ScaledRows(y: Tensor<Vec>, scores: Vec, b: nat, s: nat): (rows: seq<Vec>)
    requires y.Valid() && |y.shape| == 4 && y.shape[2] == 1 && y.shape[3] == |scores|
    requires b < y.shape[0] && s < y.shape[1]
    ensures |rows| == |scores| && forall e :: 0 <= e < |rows| ==> rows[e] == Scale(At4(y, b, s, 0, e), scores[e])
  {
    seq(|scores|, e requires 0 <= e < |scores| => Scale(At4(y, b, s, 0, e), scores[e]))
  }

  /** An expert nobody chose only adds its bias, and has no weight; so the masked rows sum to the dense mixture. */
  lemma MaskedRowsMix(bank: Bank, x: Vec, ids: seq<int>, weights: Vec, rows: seq<Vec>, masked: seq<Vec>)
    requires bank.Valid() && |x| == bank.hidden && |ids| == |weights| && |rows| == |masked| == |bank.gateUp|
    requires forall k :: 0 <= k < |ids| ==> 0 <= ids[k] < |bank.gateUp|
    requires forall e :: 0 <= e < |rows| ==> masked[e] == Masked(bank, e, x, if e in ids then 1.0 else 0.0)
    requires forall e :: 0 <= e < |rows| ==> rows[e] == Scale(masked[e], ScatterScores(ids, weights, |bank.gateUp|)[e])
    ensures rows == Terms(bank, x, ScatterScores(ids, weights, |bank.gateUp|))
  {
    var scores := ScatterScores(ids, weights, |bank.gateUp|);
    forall e | 0 <= e < |rows| ensures rows[e] == Scale(Expert(bank, e, x), scores[e]) {
      if e !in ids {
        ScaleByMask(masked[e]);
        ScaleByMask(Expert(bank, e, x));
      }
    }
  }

  /** `view(B, S, 1, hidden)`: every token a tile of its own. */
  function TokenTiles(x: Tensor<Vec>, B: nat, S: nat, width: nat): (tiles: Tensor<Vec>)
    requires x.shape == [B, S] && Rows(x, width)
    ensures tiles.shape == [B, S, 1] && Rows(tiles, width)
    ensures forall b: nat, s: nat | b < B && s < S :: At3(tiles, b, s, 0) == At2(x, b, s)
  {
    Size3(B, S, 1);
    Size2(B, S);
    var tiles := View(x, [B, S, 1]);
    assert forall b: nat, s: nat | b < B && s < S :: At3(tiles, b, s, 0) == At2(x, b, s) by {
      forall b: nat, s: nat | b < B && s < S ensures At3(tiles, b, s, 0) == At2(x, b, s) {
        AddOne([B, S], [b, s]);
        assert [B, S, 1] == [B, S] + [1] && [b, s, 0] == [b, s] + [0];
      }
    }
    tiles
  }

  lemma ScaledWide(y: Tensor<Vec>, width: nat, scores: Vec, b: nat, s: nat)
    requires Rows(y, width) && |y.shape| == 4 && y.shape[2] == 1 && y.shape[3] == |scores|
    requires b < y.shape[0] && s < y.shape[1]
    ensures Wide(ScaledRows(y, scores, b, s), width)
  {
    forall e | 0 <= e < |scores| ensures |At4(y, b, s, 0, e)| == width {
      assert At4(y, b, s, 0, e) == y.data[Flat(y.shape, [b, s, 0, e])];
    }
  }

  /** `(down_out * scattered.unsqueeze(-1)).sum(dim=1)`, one token. */
  function ExpertSum(y: Tensor<Vec>, width: nat, scores: Vec, b: nat, s: nat): Vec
    requires Rows(y, width) && |y.shape| == 4 && y.shape[2] == 1 && y.shape[3] == |scores|
    requires b < y.shape[0] && s < y.shape[1]
  {
    ScaledWide(y, width, scores, b, s);
    SumRows(width, ScaledRows(y, scores, b, s), |scores|)
  }

  /** The scattered scores of token (b, s). */
  function Scattered(ids: Tensor<int>, weights: Tensor<Vec>, experts: nat, K: nat, b: nat, s: nat): (scores: Vec)
    requires ids.Valid() && |ids.shape| == 3 && ids.shape[2] == K && b < ids.shape[0] && s < ids.shape[1]
    requires ExpertIds(ids, experts) && weights.shape == [ids.shape[0], ids.shape[1]] && Rows(weights, K)
    ensures |scores| == experts
  {
    ChoicesAreExperts(ids, experts, K, b, s);
    RowsAt2(weights, K, b, s);
    ScatterScores(Choices(ids, K, b, s), At2(weights, b, s), experts)
  }

  lemma ExpertSumMixes(bank: Bank, x: Tensor<Vec>, ids: Tensor<int>, weights: Tensor<Vec>, B: nat, S: nat, K: nat,
                       y: Tensor<Vec>, b: nat, s: nat)
    requires Weighted(bank, x, ids, weights, B, S, K) && b < B && s < S
    requires Rows(y, bank.hidden) && y.shape == [B, S, 1, |bank.gateUp|] && |At2(x, b, s)| == bank.hidden
    requires forall e: nat | e < |bank.gateUp| ::
               At4(y, b, s, 0, e) == Masked(bank, e, At2(x, b, s), if Picks(ids, b, s, e) then 1.0 else 0.0)
    ensures ExpertSum(y, bank.hidden, Scattered(ids, weights, |bank.gateUp|, K, b, s), b, s)
            == Mixture(bank, At2(x, b, s), Scattered(ids, weights, |bank.gateUp|, K, b, s))
  {
    var E, scores, choices := |bank.gateUp|, Scattered(ids, weights, |bank.gateUp|, K, b, s), Choices(ids, K, b, s);
    ChoicesAreExperts(ids, E, K, b, s);
    RowsAt2(weights, K, b, s);
    var masked := seq(E, e requires 0 <= e < E => At4(y, b, s, 0, e));
    forall e | 0 <= e < E
      ensures masked[e] == Masked(bank, e, At2(x, b, s), if e in choices then 1.0 else 0.0)
    {
      if Picks(ids, b, s, e) {
        var k :| 0 <= k < K && At3(ids, b, s, k) == e;
        assert choices[k] == e;
      }
      if e in choices {
        var k :| 0 <= k < K && choices[k] == e;
        assert At3(ids, b, s, k) == e;
      }
    }
    MaskedRowsMix(bank, At2(x, b, s), choices, At2(weights, b, s), ScaledRows(y, scores, b, s), masked);
  }

  /** SparseMLP: the dense mixture of the scattered scores, for every token. */
  method SparseForward(bank: Bank, x: Tensor<Vec>, ids: Tensor<int>, weights: Tensor<Vec>, B: nat, S: nat, K: nat)
    returns (output: Tensor<Vec>)
    requires Weighted(bank, x, ids, weights, B, S, K)
    ensures output.Valid() && output.shape == [B, S]
    ensures forall b: nat, s: nat | b < B && s < S ::
              |At2(x, b, s)| == bank.hidden
              && At2(output, b, s) == Mixture(bank, At2(x, b, s), Scattered(ids, weights, |bank.gateUp|, K, b, s))
  {
    var E := |bank.gateUp|;
    var mask := ScatterOnes(ids, E);
    var tiles := TokenTiles(x, B, S, bank.hidden);
    var y := SparseExperts(bank, tiles, mask);
    output := Build2(B, S, (b: nat, s: nat) requires b < B && s < S =>
      ExpertSum(y, bank.hidden, Scattered(ids, weights, E, K, b, s), b, s));
    forall b: nat, s: nat | b < B && s < S
      ensures |At2(x, b, s)| == bank.hidden
      ensures At2(output, b, s) == Mixture(bank, At2(x, b, s), Scattered(ids, weights, E, K, b, s))
    {
      RowsAt2(x, bank.hidden, b, s);
      ExpertSumMixes(bank, x, ids, weights, B, S, K, y, b, s);
    }
  }

  // ---- A2aSparseStackedMlp: separated weights, one token per tile, compact weights ----

  function SeparatedWeights(bank: Bank): (w: seq<Matrix>)
    requires bank.Valid()
    ensures |w| == |bank.gateUp|
    ensures forall e :: 0 <= e < |w| ==> w[e] == DeinterleaveColumns(bank.gateUp[e], bank.hidden, bank.inter)
  {
    seq(|bank.gateUp|, e requires 0 <= e < |bank.gateUp| =>
      DeinterleaveColumns(bank.gateUp[e], bank.hidden, bank.inter))
  }

  function SeparatedBias(bank: Bank): (bias: seq<Vec>)
    requires bank.Valid()
    ensures |bias| == |bank.gateUp|
    ensures forall e :: 0 <= e < |bias| ==> bias[e] == Deinterleave(bank.gateUpBias[e], bank.inter)
  {
    seq(|bank.gateUp|, e requires 0 <= e < |bank.gateUp| => Deinterleave(bank.gateUpBias[e], bank.inter))
  }

  function ActivateAllHalves(bank: Bank, t: Tensor<Vec>): (r: Tensor<Vec>)
    requires |t.shape| == 4 && Rows(t, 2 * bank.inter) && bank.activation.GptOss?
    ensures Rows(r, bank.inter) && r.shape == t.shape
    ensures forall i: nat, j: nat, k: nat, e: nat | In4(t.shape, i, j, k, e) ::
              |At4(t, i, j, k, e)| == 2 * bank.inter && At4(r, i, j, k, e) == ActivateHalves(bank, At4(t, i, j, k, e))
  {
    assert forall i: nat, j: nat, k: nat, e: nat | In4(t.shape, i, j, k, e) ::
           |At4(t, i, j, k, e)| == 2 * bank.inter by {
      forall i: nat, j: nat, k: nat, e: nat | In4(t.shape, i, j, k, e) ensures |At4(t, i, j, k, e)| == 2 * bank.inter {
        assert At4(t, i, j, k, e) == t.data[Flat(t.shape, [i, j, k, e])];
      }
    }
    var r := Build4(t.shape[0], t.shape[1], t.shape[2], t.shape[3],
      (i: nat, j: nat, k: nat, e: nat) requires In4(t.shape, i, j, k, e) => ActivateHalves(bank, At4(t, i, j, k, e)));
    Each4(r, (v: Vec) => |v| == bank.inter);
    r
  }

  /** The gate-up half against separated weights computes what the interleaved one does. */
  method StackedGateUp(bank: Bank, tiles: Tensor<Vec>, mask: Tensor<real>) returns (activated: Tensor<Vec>)
    requires TilesAndMask(bank, tiles, mask) && bank.activation.GptOss? && bank.activation.limit >= 0.0
    ensures Rows(activated, bank.inter)
    ensures activated.shape == [tiles.shape[0], tiles.shape[1], tiles.shape[2], |bank.gateUp|]
    ensures forall i: nat, j: nat, k: nat, e: nat | In4(activated.shape, i, j, k, e) ::
              |At3(tiles, i, j, k)| == bank.hidden
              && At4(activated, i, j, k, e) == GateUpRow(bank, e, At3(tiles, i, j, k), At4(mask, i, j, 0, e))
  {
    hide ActivateHalves, DeinterleaveColumns, Deinterleave, Activate;
    var product := SparseMatmulB(tiles, SeparatedWeights(bank), mask, bank.hidden, 2 * bank.inter);
    var byToken := SwapLast(Squeeze(product), 2 * bank.inter);
    var biased := AddBias(byToken, SeparatedBias(bank), 2 * bank.inter);
    activated := ActivateAllHalves(bank, biased);
    forall i: nat, j: nat, k: nat, e: nat | In4(activated.shape, i, j, k, e)
      ensures |At3(tiles, i, j, k)| == bank.hidden
      ensures At4(activated, i, j, k, e) == GateUpRow(bank, e, At3(tiles, i, j, k), At4(mask, i, j, 0, e))
    {
      assert At4(byToken, i, j, k, e) == At4(Squeeze(product), i, j, e, k) == At5(product, i, j, 0, e, k);
      assert At3(tiles, i, j, k) == tiles.data[Flat(tiles.shape, [i, j, k])];
      SameActivation(bank, e, At3(tiles, i, j, k), At4(mask, i, j, 0, e));
    }
  }

  lemma MaskEntry(mask: Tensor<real>, i: nat, j: nat, e: nat)
    requires IsMask(mask) && |mask.shape| == 4 && In4(mask.shape, i, j, 0, e)
    ensures At4(mask, i, j, 0, e) == 0.0 || At4(mask, i, j, 0, e) == 1.0
  {
    assert At4(mask, i, j, 0, e) == mask.data[Flat(mask.shape, [i, j, 0, e])];
  }

  /** Masking both products of an expert either changes nothing or leaves the last bias. */
  lemma HalvesMask(bank: Bank, e: nat, x: Vec, m: real)
    requires bank.Valid() && e < |bank.gateUp| && |x| == bank.hidden
    ensures m == 0.0 || m == 1.0 ==>
              Add(Scale(RowMul(GateUpRow(bank, e, x, m), bank.down[e], bank.hidden), m), bank.downBias[e]) ==
                Masked(bank, e, x, m)
  {
    ScaleByMask(RowMul(x, bank.gateUp[e], 2 * bank.inter));
    ScaleByMask(RowMul(GateUpRow(bank, e, x, m), bank.down[e], bank.hidden));
    AddZeros(bank.downBias[e]);
  }

  method StackedExperts(bank: Bank, tiles: Tensor<Vec>, mask: Tensor<real>) returns (y: Tensor<Vec>)
    requires TilesAndMask(bank, tiles, mask) && bank.activation.GptOss? && bank.activation.limit >= 0.0
    ensures Rows(y, bank.hidden)
    ensures y.shape == [tiles.shape[0], tiles.shape[1], tiles.shape[2], |bank.gateUp|]
    ensures forall i: nat, j: nat, k: nat, e: nat | In4(y.shape, i, j, k, e) ::
              |At3(tiles, i, j, k)| == bank.hidden
              && At4(y, i, j, k, e) == Masked(bank, e, At3(tiles, i, j, k), At4(mask, i, j, 0, e))
  {
    var activated := StackedGateUp(bank, tiles, mask);
    y := DownSparse(bank, activated, mask);
    forall i: nat, j: nat, k: nat, e: nat | In4(y.shape, i, j, k, e)
      ensures |At3(tiles, i, j, k)| == bank.hidden
      ensures At4(y, i, j, k, e) == Masked(bank, e, At3(tiles, i, j, k), At4(mask, i, j, 0, e))
    {
      HalvesMask(bank, e, At3(tiles, i, j, k), At4(mask, i, j, 0, e));
      MaskEntry(mask, i, j, e);
    }
  }

  /** One-token tiles are the tokens. */
  lemma UnitTiles(p: Pass)
    requires p.m == 1 && p.Tileable()
    ensures p.Cut().a == p.B * p.D && p.Cut().b == p.S && p.Cut().m == 1 && !p.Cut().layout.Decode?
    ensures forall i: nat :: p.Cut().Row(i, 0) == i
    ensures forall j: nat :: p.Cut().Pos(j, 0) == j
  {}

  /** `metadata.view(B * D, S, 1, K)`, scattered: the mask of one-token tiles. */
  method TokenMask(p: Pass, bank: Bank, ids: Tensor<int>) returns (mask: Tensor<real>)
    requires p.m == 1 && p.Tileable() && p.D > 0 && ids.Valid() && ids.shape == [p.B, p.S, p.K]
    ensures IsMask(mask) && MaskOf(p, bank, ids, Manual, mask)
  {
    UnitTiles(p);
    var rows, metadata := p.B * p.D, p.Ids(ids);
    Size4(1, rows, p.S, p.K);
    Size3(rows, p.S, p.K);
    var index := View(metadata, [rows, p.S, p.K]);
    mask := ScatterOnes(index, |bank.gateUp|);
    forall i: nat, j: nat, e: nat | i < rows && j < p.S && e < |bank.gateUp|
      ensures Picks(index, i, j, e) <==> TileWants(metadata, p.Cut(), rows, p.S, i, j, e)
    {
      forall k: nat | k < p.K ensures At3(index, i, j, k) == At4(metadata, 0, i, j, k) {
        DropFirst4(rows, p.S, p.K, i, j, k);
      }
      if Picks(index, i, j, e) {
        assert Selected(metadata, i, j, e);
        assert p.Cut().Row(i, 0) == i && p.Cut().Pos(j, 0) == j;
      }
    }
  }

  /** The weighted sum of the first n fetched rows, with compact weights. */
  function CompactSum(width: nat, rows: seq<Vec>, weights: Vec, n: nat): (r: Vec)
    requires n <= |rows| == |weights| && Wide(rows, width)
    ensures |r| == width
  {
    if n == 0 then Zeros(width) else Add(CompactSum(width, rows, weights, n - 1), Scale(rows[n - 1], weights[n - 1]))
  }

  /** For distinct choices the compact weights are the scattered scores, gathered back. */
  lemma {:induction false} CompactIsTopK(width: nat, rows: seq<Vec>, ids: seq<int>, weights: Vec, experts: nat, n: nat)
    requires n <= |rows| == |weights| == |ids| && Wide(rows, width)
    requires forall k :: 0 <= k < |ids| ==> 0 <= ids[k] < experts
    requires forall j, k :: 0 <= j < k < |ids| ==> ids[j] != ids[k]
    ensures CompactSum(width, rows, weights, n) == TopKSum(width, rows, ids, ScatterScores(ids, weights, experts), n)
  {
    hide ScatterScores, Add, Scale;
    if n > 0 {
      CompactIsTopK(width, rows, ids, weights, experts, n - 1);
      RouterScores(ids, weights, experts);
      OneHotGathers(ScatterScores(ids, weights, experts), ids[n - 1], experts);
    }
  }

  /** What the stacked forward fetches for a token, weighted, is the token's mixture. */
  lemma FetchedMixes(bank: Bank, x: Vec, ids: seq<int>, weights: Vec, rows: seq<Vec>)
    requires bank.Valid() && |x| == bank.hidden && |ids| == |weights| == |rows|
    requires forall k :: 0 <= k < |ids| ==> 0 <= ids[k] < |bank.gateUp| && rows[k] == Expert(bank, ids[k], x)
    requires forall j, k :: 0 <= j < k < |ids| ==> ids[j] != ids[k]
    ensures Wide(rows, bank.hidden)
    ensures CompactSum(bank.hidden, rows, weights, |ids|) ==
            Mixture(bank, x, ScatterScores(ids, weights, |bank.gateUp|))
  {
    hide ScatterScores, CompactSum, TopKSum, Mixture, Expert;
    RouterScores(ids, weights, |bank.gateUp|);
    CompactIsTopK(bank.hidden, rows, ids, weights, |bank.gateUp|, |ids|);
    TopKIsMixture(bank, x, ScatterScores(ids, weights, |bank.gateUp|), rows, ids);
  }

  lemma StackedOutcome(p: Pass, bank: Bank, x: Tensor<Vec>, ids: Tensor<int>, mask: Tensor<real>, y: Tensor<Vec>,
                       combined: Tensor<Vec>, k: nat, b: nat, s: nat)
    requires p.m == 1 && p.Accepts(bank, x, ids) && MaskOf(p, bank, ids, Manual, mask)
    requires OutputsUnder(p, bank, Load(p.Cut(), DispatchTokens(x, p.B, p.S, p.D), p.B * p.D, p.S), mask, y)
    requires k < p.K && b < p.B && s < p.S && Combines(p, bank, ids, y, combined)
    ensures combined.Valid() && combined.shape == [p.K, p.B, p.S]
    ensures 0 <= At3(ids, b, s, k) < |bank.gateUp| && |At2(x, b, s)| == bank.hidden
    ensures At3(combined, k, b, s) == Expert(bank, At3(ids, b, s, k), At2(x, b, s))
  {
    hide MaskOf, OutputsUnder, Load, Store, Expert;
    UnitTiles(p);
    PathsAgree(p, bank, x, ids, Manual, k, b, s);
    CombinedIsOutcome(p, bank, x, ids, Manual, mask, y, combined, k, b, s);
  }

  /** The stacked experts, dispatched and combined: every choice comes out as its expert on its token. */
  method StackedOutputs(p: Pass, bank: Bank, x: Tensor<Vec>, ids: Tensor<int>) returns (combined: Tensor<Vec>)
    requires p.m == 1 && p.Accepts(bank, x, ids) && bank.activation.GptOss? && bank.activation.limit >= 0.0
    ensures combined.Valid() && combined.shape == [p.K, p.B, p.S]
    ensures forall k: nat, b: nat, s: nat | k < p.K && b < p.B && s < p.S ::
              && 0 <= At3(ids, b, s, k) < |bank.gateUp| && |At2(x, b, s)| == bank.hidden
              && At3(combined, k, b, s) == Expert(bank, At3(ids, b, s, k), At2(x, b, s))
  {
    hide Load, Store;
    UnitTiles(p);
    var rows, t := p.B * p.D, p.Cut();
    var dispatched := DispatchTokens(x, p.B, p.S, p.D);
    ReplicatedTokens(x, p.B, p.S, p.D, bank.hidden);
    LoadRows(t, dispatched, rows, p.S, bank.hidden);
    var mask := TokenMask(p, bank, ids);
    var y := StackedExperts(bank, Load(t, dispatched, rows, p.S), mask);
    combined := CombineOutputs(p, bank, ids, y);
    forall k: nat, b: nat, s: nat | k < p.K && b < p.B && s < p.S
      ensures 0 <= At3(ids, b, s, k) < |bank.gateUp| && |At2(x, b, s)| == bank.hidden
      ensures At3(combined, k, b, s) == Expert(bank, At3(ids, b, s, k), At2(x, b, s))
    {
      StackedOutcome(p, bank, x, ids, mask, y, combined, k, b, s);
    }
  }

  /** A2aSparseStackedMlp: the mixture of the scattered scores, for every token, whatever the dispatch. */
  method StackedForward(p: Pass, bank: Bank, x: Tensor<Vec>, ids: Tensor<int>, weights: Tensor<Vec>)
    returns (output: Tensor<Vec>)
    requires p.m == 1 && p.Accepts(bank, x, ids) && bank.activation.GptOss? && bank.activation.limit >= 0.0
    requires Weighted(bank, x, ids, weights, p.B, p.S, p.K) && ValidRouting(p, ids, |bank.gateUp|)
    ensures output.Valid() && output.shape == [p.B, p.S]
    ensures forall b: nat, s: nat | b < p.B && s < p.S ::
              |At2(x, b, s)| == bank.hidden
              && At2(output, b, s) == Mixture(bank, At2(x, b, s), Scattered(ids, weights, |bank.gateUp|, p.K, b, s))
  {
    hide Expert;
    var combined := StackedOutputs(p, bank, x, ids);
    forall b: nat, s: nat | b < p.B && s < p.S
      ensures |At2(x, b, s)| == bank.hidden && |At2(weights, b, s)| == p.K
      ensures Wide(Fetch(combined, false, p.K, b, s), bank.hidden)
      ensures CompactSum(bank.hidden, Fetch(combined, false, p.K, b, s), At2(weights, b, s), p.K)
              == Mixture(bank, At2(x, b, s), Scattered(ids, weights, |bank.gateUp|, p.K, b, s))
    {
      RowsAt2(x, bank.hidden, b, s);
      RowsAt2(weights, p.K, b, s);
      ChoicesAreExperts(ids, |bank.gateUp|, p.K, b, s);
      FetchedMixes(bank, At2(x, b, s), Choices(ids, p.K, b, s), At2(weights, b, s), Fetch(combined, false, p.K, b, s));
    }
    output := Build2(p.B, p.S, (b: nat, s: nat) requires b < p.B && s < p.S =>
      CompactSum(bank.hidden, Fetch(combined, false, p.K, b, s), At2(weights, b, s), p.K));
  }
}
