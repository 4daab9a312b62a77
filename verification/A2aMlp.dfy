/** The expert computation of A2aSparseMLP between dispatch and combine. */
module A2aMlp {
  import opened Tensors
  import opened Experts
  import opened MoeOps
  import opened Tiles

  // ---- per-row steps and layout changes on [A, B, M, E] ----

  function AddBias(t: Tensor<Vec>, bias: seq<Vec>, width: nat): (r: Tensor<Vec>)
    requires |t.shape| == 4 && t.shape[3] == |bias| && Rows(t, width)
    requires forall e :: 0 <= e < |bias| ==> |bias[e]| == width
    ensures Rows(r, width) && r.shape == t.shape
    ensures forall i: nat, j: nat, k: nat, e: nat | In4(t.shape, i, j, k, e) ::
              |At4(t, i, j, k, e)| == width && At4(r, i, j, k, e) == Add(At4(t, i, j, k, e), bias[e])
  {
    var r := Build4(t.shape[0], t.shape[1], t.shape[2], t.shape[3],
      (i: nat, j: nat, k: nat, e: nat) requires In4(t.shape, i, j, k, e) => Add(At4(t, i, j, k, e), bias[e]));
    Each4(r, (v: Vec) => |v| == width);
    r
  }

  function ActivateAll(bank: Bank, t: Tensor<Vec>): (r: Tensor<Vec>)
    requires |t.shape| == 4 && Rows(t, 2 * bank.inter)
    ensures Rows(r, bank.inter) && r.shape == t.shape
    ensures forall i: nat, j: nat, k: nat, e: nat | In4(t.shape, i, j, k, e) ::
              |At4(t, i, j, k, e)| == 2 * bank.inter && At4(r, i, j, k, e) == Activate(bank, At4(t, i, j, k, e))
  {
    var r := Build4(t.shape[0], t.shape[1], t.shape[2], t.shape[3],
      (i: nat, j: nat, k: nat, e: nat) requires In4(t.shape, i, j, k, e) => Activate(bank, At4(t, i, j, k, e)));
    Each4(r, (v: Vec) => |v| == bank.inter);
    r
  }

  lemma SwapLastAt<T>(t: Tensor<T>, i: nat, j: nat, k: nat, l: nat)
    requires t.Valid() && In4(t.shape, i, j, l, k)
    ensures At4(Permute4(t, [0, 1, 3, 2]), i, j, k, l) == At4(t, i, j, l, k)
  {
    Permute4At(t, [0, 1, 3, 2], [i, j, l, k]);
  }

  /** `t.permute(0, 1, 3, 2)`. */
  function SwapLast(t: Tensor<Vec>, width: nat): (r: Tensor<Vec>)
    requires |t.shape| == 4 && Rows(t, width)
    ensures Rows(r, width) && r.shape == [t.shape[0], t.shape[1], t.shape[3], t.shape[2]]
    ensures forall i: nat, j: nat, k: nat, l: nat | In4(t.shape, i, j, l, k) ::
              At4(r, i, j, k, l) == At4(t, i, j, l, k)
  {
    var r := Permute4(t, [0, 1, 3, 2]);
    assert forall i: nat, j: nat, k: nat, l: nat | In4(t.shape, i, j, l, k) ::
        At4(r, i, j, k, l) == At4(t, i, j, l, k) by {
      forall i: nat, j: nat, k: nat, l: nat | In4(t.shape, i, j, l, k)
        ensures At4(r, i, j, k, l) == At4(t, i, j, l, k)
      {
        SwapLastAt(t, i, j, k, l);
      }
    }
    Each4(r, (v: Vec) => |v| == width);
    r
  }

  /** `squeeze(2)`: [A, B, 1, E, M] to [A, B, E, M]. */
  function Squeeze(t: Tensor<Vec>): (r: Tensor<Vec>)
    requires t.Valid() && |t.shape| == 5 && t.shape[2] == 1
    ensures r.Valid() && r.shape == [t.shape[0], t.shape[1], t.shape[3], t.shape[4]]
    ensures r.data == t.data
    ensures forall i: nat, j: nat, e: nat, m: nat | In4(r.shape, i, j, e, m) ::
              At4(r, i, j, e, m) == At5(t, i, j, 0, e, m)
  {
    var A, B, E, M := t.shape[0], t.shape[1], t.shape[3], t.shape[4];
    assert t.shape == [A, B, 1, E, M];
    Size5(A, B, 1, E, M);
    Size4(A, B, E, M);
    var r := View(t, [A, B, E, M]);
    assert forall i: nat, j: nat, e: nat, m: nat | In4(r.shape, i, j, e, m) ::
        At4(r, i, j, e, m) == At5(t, i, j, 0, e, m) by {
      forall i: nat, j: nat, e: nat, m: nat | In4(r.shape, i, j, e, m)
        ensures At4(r, i, j, e, m) == At5(t, i, j, 0, e, m)
      {
        DropThird5(A, B, E, M, i, j, e, m);
      }
    }
    r
  }

  lemma JoinSize(a: nat, b: nat, e: nat, m: nat, ab: nat)
    requires ab == a * b
    ensures Size([a, b, e, m]) == Size([ab, e, m])
  {
    Size4(a, b, e, m);
    Size3(ab, e, m);
  }

  function Joined(i: nat, b: nat, j: nat): nat {
    i * b + j
  }

  /** `view(A * B, E, M)`. */
  function Join(t: Tensor<Vec>, ab: nat): (r: Tensor<Vec>)
    requires t.Valid() && |t.shape| == 4 && ab == t.shape[0] * t.shape[1]
    ensures r.Valid() && r.shape == [ab, t.shape[2], t.shape[3]] && r.data == t.data
  {
    JoinSize(t.shape[0], t.shape[1], t.shape[2], t.shape[3], ab);
    assert t.shape == [t.shape[0], t.shape[1], t.shape[2], t.shape[3]];
    View(t, [ab, t.shape[2], t.shape[3]])
  }

  lemma JoinAt(t: Tensor<Vec>, ab: nat, i: nat, j: nat, e: nat, m: nat, ij: nat)
    requires t.Valid() && In4(t.shape, i, j, e, m)
    requires ab == t.shape[0] * t.shape[1] && ij == i * t.shape[1] + j
    ensures ij < ab && At3(Join(t, ab), ij, e, m) == At4(t, i, j, e, m)
  {
    assert t.shape == [t.shape[0], t.shape[1], t.shape[2], t.shape[3]];
    MergeFirst4(t.shape[0], t.shape[1], t.shape[2], t.shape[3], i, j, e, m, ab, ij);
    assert InRange([ab, t.shape[2], t.shape[3]], [ij, e, m]);
    assert [ij, e, m][0] < [ab, t.shape[2], t.shape[3]][0];
  }

  /** `view(A, B, E, M)`, the inverse of Join. */
  function Split(t: Tensor<Vec>, a: nat, b: nat): (r: Tensor<Vec>)
    requires t.Valid() && |t.shape| == 3 && t.shape[0] == a * b
    ensures r.Valid() && r.shape == [a, b, t.shape[1], t.shape[2]] && r.data == t.data
  {
    JoinSize(a, b, t.shape[1], t.shape[2], t.shape[0]);
    assert t.shape == [t.shape[0], t.shape[1], t.shape[2]];
    View(t, [a, b, t.shape[1], t.shape[2]])
  }

  lemma SplitAt(t: Tensor<Vec>, a: nat, b: nat, i: nat, j: nat, e: nat, m: nat, ij: nat)
    requires t.Valid() && |t.shape| == 3 && t.shape[0] == a * b && ij == i * b + j
    requires i < a && j < b && e < t.shape[1] && m < t.shape[2]
    ensures ij < t.shape[0] && At4(Split(t, a, b), i, j, e, m) == At3(t, ij, e, m)
  {
    assert t.shape == [t.shape[0], t.shape[1], t.shape[2]];
    MergeFirst4(a, b, t.shape[1], t.shape[2], i, j, e, m, t.shape[0], ij);
    assert [ij, e, m][0] < t.shape[0];
  }

  /** `sparsity.view(1, 1, A * B, E)`. */
  function Flatten(mask: Tensor<real>, ab: nat): (r: Tensor<real>)
    requires mask.Valid() && |mask.shape| == 4 && mask.shape[2] == 1 && ab == mask.shape[0] * mask.shape[1]
    ensures r.Valid() && r.shape == [1, 1, ab, mask.shape[3]]
  {
    assert mask.shape == [mask.shape[0], mask.shape[1], 1, mask.shape[3]];
    Size4(mask.shape[0], mask.shape[1], 1, mask.shape[3]);
    Size4(1, 1, ab, mask.shape[3]);
    View(mask, [1, 1, ab, mask.shape[3]])
  }

  lemma FlattenAt(mask: Tensor<real>, ab: nat, i: nat, j: nat, e: nat, ij: nat)
    requires mask.Valid() && In4(mask.shape, i, j, 0, e) && mask.shape[2] == 1
    requires ab == mask.shape[0] * mask.shape[1] && ij == i * mask.shape[1] + j
    ensures ij < ab && At4(Flatten(mask, ab), 0, 0, ij, e) == At4(mask, i, j, 0, e)
  {
    var A, B, E := mask.shape[0], mask.shape[1], mask.shape[3];
    assert mask.shape == [A, B, 1, E];
    DropThird4(A, B, E, i, j, e);
    MergeFirst3(A, B, E, i, j, e, ab, ij);
    assert [ij, e][0] < [ab, E][0];
    DropFirst3(ab, E, ij, e);
    DropFirst4(1, ab, E, 0, ij, e);
  }

  // ---- the two halves of an expert, over all tiles ----

  ghost predicate TilesAndMask(bank: Bank, tiles: Tensor<Vec>, mask: Tensor<real>) {
    && bank.Valid()
    && |tiles.shape| == 3 && Rows(tiles, bank.hidden)
    && IsMask(mask) && mask.shape == [tiles.shape[0], tiles.shape[1], 1, |bank.gateUp|]
  }

  function GateUpRow(bank: Bank, e: nat, x: Vec, scale: real): (r: Vec)
    requires bank.Valid() && e < |bank.gateUp| && |x| == bank.hidden
    ensures |r| == bank.inter
  {
    Activate(bank, Add(Scale(RowMul(x, bank.gateUp[e], 2 * bank.inter), scale), bank.gateUpBias[e]))
  }

  /** Gate-up product under the tile mask, bias and activation: [A, B, M] to [A, B, M, E]. */
  method GateUpSparse(bank: Bank, tiles: Tensor<Vec>, mask: Tensor<real>) returns (activated: Tensor<Vec>)
    requires TilesAndMask(bank, tiles, mask)
    ensures Rows(activated, bank.inter)
    ensures activated.shape == [tiles.shape[0], tiles.shape[1], tiles.shape[2], |bank.gateUp|]
    ensures forall i: nat, j: nat, k: nat, e: nat | In4(activated.shape, i, j, k, e) ::
              |At3(tiles, i, j, k)| == bank.hidden
              && At4(activated, i, j, k, e) == GateUpRow(bank, e, At3(tiles, i, j, k), At4(mask, i, j, 0, e))
  {
    hide RowMul, Scale, Add, Activate, Flat, Size;
    var product := SparseMatmulB(tiles, bank.gateUp, mask, bank.hidden, 2 * bank.inter);
    var byToken := SwapLast(Squeeze(product), 2 * bank.inter);
    var biased := AddBias(byToken, bank.gateUpBias, 2 * bank.inter);
    activated := ActivateAll(bank, biased);
    forall i: nat, j: nat, k: nat, e: nat | In4(activated.shape, i, j, k, e)
      ensures |At3(tiles, i, j, k)| == bank.hidden
      ensures At4(activated, i, j, k, e) == GateUpRow(bank, e, At3(tiles, i, j, k), At4(mask, i, j, 0, e))
    {
      assert At4(byToken, i, j, k, e) == At4(Squeeze(product), i, j, e, k) == At5(product, i, j, 0, e, k);
    }
  }

  /** Down product under the same mask, and bias: [A, B, M, E] to [A, B, M, E]. */
  method DownSparse(bank: Bank, activated: Tensor<Vec>, mask: Tensor<real>) returns (y: Tensor<Vec>)
    requires bank.Valid() && |activated.shape| == 4 && activated.shape[3] == |bank.gateUp|
    requires Rows(activated, bank.inter)
    requires IsMask(mask) && mask.shape == [activated.shape[0], activated.shape[1], 1, |bank.gateUp|]
    ensures Rows(y, bank.hidden) && y.shape == activated.shape
    ensures forall i: nat, j: nat, k: nat, e: nat | In4(activated.shape, i, j, k, e) ::
              |At4(activated, i, j, k, e)| == bank.inter
              && At4(y, i, j, k, e) == Add(Scale(RowMul(At4(activated, i, j, k, e), bank.down[e], bank.hidden),
                                                 At4(mask, i, j, 0, e)), bank.downBias[e])
  {
    var A, B, M, E := activated.shape[0], activated.shape[1], activated.shape[2], activated.shape[3];
    var ab := A * B;
    var byExpert := SwapLast(activated, bank.inter);
    var blocks := Join(byExpert, ab);
    var product := SparseMatmulA(blocks, bank.down, Flatten(mask, ab), bank.inter, bank.hidden);
    var byToken := SwapLast(Split(product, A, B), bank.hidden);
    y := AddBias(byToken, bank.downBias, bank.hidden);
    forall i: nat, j: nat, k: nat, e: nat | In4(activated.shape, i, j, k, e)
      ensures |At4(activated, i, j, k, e)| == bank.inter
      ensures At4(y, i, j, k, e) == Add(Scale(RowMul(At4(activated, i, j, k, e), bank.down[e], bank.hidden),
                                              At4(mask, i, j, 0, e)), bank.downBias[e])
    {
      var ij := Joined(i, B, j);
      JoinAt(byExpert, ab, i, j, e, k, ij);
      FlattenAt(mask, ab, i, j, e, ij);
      SplitAt(product, A, B, i, j, e, k, ij);
      assert At3(product, ij, e, k) == BlockProduct(blocks, bank.down, Flatten(mask, ab), bank.hidden, ij, e, k);
    }
  }

  /** What a tile computes for expert e and token row x: the expert if the tile is live, else only a bias. */
  function Masked(bank: Bank, e: nat, x: Vec, mask: real): Vec
    requires bank.Valid() && e < |bank.gateUp| && |x| == bank.hidden
  {
    if mask == 1.0 then Expert(bank, e, x) else bank.downBias[e]
  }

  /** Both sparse paths, once their mask is built: [A, B, M] tiles to [A, B, M, E] outputs. */
  method SparseExperts(bank: Bank, tiles: Tensor<Vec>, mask: Tensor<real>) returns (y: Tensor<Vec>)
    requires TilesAndMask(bank, tiles, mask)
    ensures Rows(y, bank.hidden)
    ensures y.shape == [tiles.shape[0], tiles.shape[1], tiles.shape[2], |bank.gateUp|]
    ensures forall i: nat, j: nat, k: nat, e: nat | In4(y.shape, i, j, k, e) ::
              |At3(tiles, i, j, k)| == bank.hidden
              && At4(y, i, j, k, e) == Masked(bank, e, At3(tiles, i, j, k), At4(mask, i, j, 0, e))
  {
    var activated := GateUpSparse(bank, tiles, mask);
    y := DownSparse(bank, activated, mask);
    forall i: nat, j: nat, k: nat, e: nat | In4(y.shape, i, j, k, e)
      ensures |At3(tiles, i, j, k)| == bank.hidden
      ensures At4(y, i, j, k, e) == Masked(bank, e, At3(tiles, i, j, k), At4(mask, i, j, 0, e))
    {
      var x := At3(tiles, i, j, k);
      var row := At4(activated, i, j, k, e);
      ScaleByMask(RowMul(x, bank.gateUp[e], 2 * bank.inter));
      ScaleByMask(RowMul(row, bank.down[e], bank.hidden));
      AddZeros(bank.downBias[e]);
    }
  }

  method DenseDown(bank: Bank, activated: Tensor<Vec>) returns (y: Tensor<Vec>)
    requires bank.Valid() && |activated.shape| == 4 && activated.shape[3] == |bank.gateUp|
    requires Rows(activated, bank.inter)
    ensures Rows(y, bank.hidden) && y.shape == activated.shape
    ensures forall i: nat, j: nat, k: nat, e: nat | In4(activated.shape, i, j, k, e) ::
              |At4(activated, i, j, k, e)| == bank.inter
              && At4(y, i, j, k, e) == Add(RowMul(At4(activated, i, j, k, e), bank.down[e], bank.hidden),
                                           bank.downBias[e])
  {
    var A, B, M, E := activated.shape[0], activated.shape[1], activated.shape[2], activated.shape[3];
    var ab := A * B;
    var byExpert := SwapLast(activated, bank.inter);
    var blocks := Join(byExpert, ab);
    var product := Build3(ab, E, M, (i: nat, e: nat, k: nat) requires i < ab && e < E && k < M =>
      RowMul(At3(blocks, i, e, k), bank.down[e], bank.hidden));
    Each3(product, (v: Vec) => |v| == bank.hidden);
    var byToken := SwapLast(Split(product, A, B), bank.hidden);
    y := AddBias(byToken, bank.downBias, bank.hidden);
    forall i: nat, j: nat, k: nat, e: nat | In4(activated.shape, i, j, k, e)
      ensures |At4(activated, i, j, k, e)| == bank.inter
      ensures At4(y, i, j, k, e) == Add(RowMul(At4(activated, i, j, k, e), bank.down[e], bank.hidden), bank.downBias[e])
    {
      var ij := Joined(i, B, j);
      JoinAt(byExpert, ab, i, j, e, k, ij);
      SplitAt(product, A, B, i, j, e, k, ij);
    }
  }

  /** The dense path: every expert on every token, `torch.matmul` in place of the sparse products. */
  method DenseExperts(bank: Bank, tiles: Tensor<Vec>) returns (y: Tensor<Vec>)
    requires bank.Valid() && |tiles.shape| == 3 && Rows(tiles, bank.hidden)
    ensures Rows(y, bank.hidden)
    ensures y.shape == [tiles.shape[0], tiles.shape[1], tiles.shape[2], |bank.gateUp|]
    ensures forall i: nat, j: nat, k: nat, e: nat | In4(y.shape, i, j, k, e) ::
              |At3(tiles, i, j, k)| == bank.hidden
              && At4(y, i, j, k, e) == Expert(bank, e, At3(tiles, i, j, k))
  {
    var A, B, M, E := tiles.shape[0], tiles.shape[1], tiles.shape[2], |bank.gateUp|;
    var gateUp := Build4(A, B, E, M, (i: nat, j: nat, e: nat, k: nat) requires i < A && j < B && e < E && k < M =>
      RowMul(At3(tiles, i, j, k), bank.gateUp[e], 2 * bank.inter));
    Each4(gateUp, (v: Vec) => |v| == 2 * bank.inter);
    var activated := ActivateAll(bank, AddBias(SwapLast(gateUp, 2 * bank.inter), bank.gateUpBias, 2 * bank.inter));
    y := DenseDown(bank, activated);
  }
}
