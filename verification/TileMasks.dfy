/** Which tiles each sparse path leaves live. */
module TileMasks {
  import opened Tensors
  import opened MoeOps
  import opened Tiles

  ghost predicate Routed(metadata: Tensor<int>, t: Tiling, rows: nat, seqLen: nat) {
    && t.Covers(rows, seqLen)
    && metadata.Valid() && |metadata.shape| == 4 && metadata.shape[0] == 1
    && metadata.shape[1] == rows && metadata.shape[2] == seqLen
  }

  /** Some token of tile (i, j) selected expert e. */
  ghost predicate TileWants(metadata: Tensor<int>, t: Tiling, rows: nat, seqLen: nat, i: nat, j: nat, e: int)
    requires Routed(metadata, t, rows, seqLen) && i < t.a && j < t.b
  {
    exists k: nat :: k < t.m
      && t.Row(i, k) < rows && t.Pos(j, k) < seqLen
      && Selected(metadata, t.Row(i, k), t.Pos(j, k), e)
  }

  // ---- the manual path: scatter, sum over the tile, clamp ----

  /** Entry (i, j, e) of the sum over the tile's tokens. */
  function SumTokens(mask: Tensor<real>, dim: nat, i: nat, j: nat, e: nat, n: nat): real
    requires mask.Valid() && |mask.shape| == 4 && (dim == 1 || dim == 2) && n <= mask.shape[dim]
    requires i < mask.shape[0] && j < mask.shape[3 - dim] && e < mask.shape[3]
  {
    if n == 0 then 0.0
    else SumTokens(mask, dim, i, j, e, n - 1)
         + (if dim == 1 then At4(mask, i, n - 1, j, e) else At4(mask, i, j, n - 1, e))
  }

  ghost predicate AnyToken(mask: Tensor<real>, dim: nat, i: nat, j: nat, e: nat, n: nat)
    requires mask.Valid() && |mask.shape| == 4 && (dim == 1 || dim == 2) && n <= mask.shape[dim]
    requires i < mask.shape[0] && j < mask.shape[3 - dim] && e < mask.shape[3]
  {
    exists k: nat :: k < n && (if dim == 1 then At4(mask, i, k, j, e) else At4(mask, i, j, k, e)) == 1.0
  }

  lemma {:induction false} ClampedSum(mask: Tensor<real>, dim: nat, i: nat, j: nat, e: nat, n: nat)
    requires IsMask(mask) && |mask.shape| == 4 && (dim == 1 || dim == 2) && n <= mask.shape[dim]
    requires i < mask.shape[0] && j < mask.shape[3 - dim] && e < mask.shape[3]
    ensures SumTokens(mask, dim, i, j, e, n) >= 0.0
    ensures if AnyToken(mask, dim, i, j, e, n) then SumTokens(mask, dim, i, j, e, n) >= 1.0
            else SumTokens(mask, dim, i, j, e, n) == 0.0
  {
    if n > 0 {
      ClampedSum(mask, dim, i, j, e, n - 1);
      var last := if dim == 1 then At4(mask, i, n - 1, j, e) else At4(mask, i, j, n - 1, e);
      assert last == mask.data[Flat(mask.shape, if dim == 1 then [i, n - 1, j, e] else [i, j, n - 1, e])];
    }
  }

  /** `sum(dim).clamp(max=1.0).unsqueeze(2)`. */
  function TileMask(mask: Tensor<real>, dim: nat): (r: Tensor<real>)
    requires IsMask(mask) && |mask.shape| == 4 && (dim == 1 || dim == 2)
    ensures IsMask(r) && r.shape == [mask.shape[0], mask.shape[3 - dim], 1, mask.shape[3]]
    ensures forall i: nat, j: nat, e: nat | In4(r.shape, i, j, 0, e) ::
              At4(r, i, j, 0, e) == if AnyToken(mask, dim, i, j, e, mask.shape[dim]) then 1.0 else 0.0
  {
    var r := Build4(mask.shape[0], mask.shape[3 - dim], 1, mask.shape[3],
      (i: nat, j: nat, o: nat, e: nat) requires i < mask.shape[0] && j < mask.shape[3 - dim] && e < mask.shape[3] =>
        var sum := SumTokens(mask, dim, i, j, e, mask.shape[dim]);
        if sum > 1.0 then 1.0 else sum);
    assert forall i: nat, j: nat, o: nat, e: nat | In4(r.shape, i, j, o, e) ::
        At4(r, i, j, o, e) == if AnyToken(mask, dim, i, j, e, mask.shape[dim]) then 1.0 else 0.0 by {
      forall i: nat, j: nat, o: nat, e: nat | In4(r.shape, i, j, o, e)
        ensures At4(r, i, j, o, e) == if AnyToken(mask, dim, i, j, e, mask.shape[dim]) then 1.0 else 0.0
      {
        ClampedSum(mask, dim, i, j, e, mask.shape[dim]);
      }
    }
    Each4(r, (x: real) => x == 0.0 || x == 1.0);
    r
  }

  /** `metadata[0]`, as [BD, S, K]. */
  function DropLead(metadata: Tensor<int>): (index: Tensor<int>)
    requires metadata.Valid() && |metadata.shape| == 4 && metadata.shape[0] == 1
    ensures index.Valid() && index.shape == metadata.shape[1..]
    ensures forall row: nat, s: nat, k: nat | In3(index.shape, row, s, k) ::
              At3(index, row, s, k) == At4(metadata, 0, row, s, k)
  {
    var rows, seqLen, topK := metadata.shape[1], metadata.shape[2], metadata.shape[3];
    assert metadata.shape == [1, rows, seqLen, topK] && metadata.shape[1..] == [rows, seqLen, topK];
    Size4(1, rows, seqLen, topK);
    Size3(rows, seqLen, topK);
    var index := View(metadata, [rows, seqLen, topK]);
    assert forall row: nat, s: nat, k: nat | In3(index.shape, row, s, k) ::
        At3(index, row, s, k) == At4(metadata, 0, row, s, k) by {
      forall row: nat, s: nat, k: nat | In3(index.shape, row, s, k)
        ensures At3(index, row, s, k) == At4(metadata, 0, row, s, k)
      {
        DropFirst4(rows, seqLen, topK, row, s, k);
      }
    }
    index
  }

  lemma ScatteredRows(metadata: Tensor<int>, experts: nat, row: nat, s: nat, e: nat)
    requires metadata.Valid() && |metadata.shape| == 4 && metadata.shape[0] == 1
    requires row < metadata.shape[1] && s < metadata.shape[2] && e < experts
    ensures At4(ScatterOnes(DropLead(metadata), experts), row, s, 0, e)
            == if Selected(metadata, row, s, e) then 1.0 else 0.0
  {
    var index := DropLead(metadata);
    if Selected(metadata, row, s, e) {
      var k :| 0 <= k < metadata.shape[3] && At4(metadata, 0, row, s, k) == e;
      assert At3(index, row, s, k) == e;
    }
  }

  lemma TiledSizes(t: Tiling, rows: nat, seqLen: nat, experts: nat)
    requires t.Covers(rows, seqLen)
    ensures Size([rows, seqLen, 1, experts]) == Size([t.a, t.b, t.m, experts]) == Size([t.a, t.m, t.b, experts])
  {
    TileSizes(t, rows, seqLen);
    Size3(t.a, t.b, t.m); Size3(t.a, t.m, t.b);
    Size4(rows, seqLen, 1, experts); Size4(t.a, t.b, t.m, experts); Size4(t.a, t.m, t.b, experts);
  }

  /** The scattered mask [BD, S, 1, E], seen tile by tile. */
  function Tiled(t: Tiling, mask: Tensor<real>, rows: nat, seqLen: nat, experts: nat): (r: Tensor<real>)
    requires t.Covers(rows, seqLen) && IsMask(mask) && mask.shape == [rows, seqLen, 1, experts]
    ensures IsMask(r)
    ensures r.shape == if t.layout.SplitSeq? then [t.a, t.b, t.m, experts] else [t.a, t.m, t.b, experts]
  {
    TiledSizes(t, rows, seqLen, experts);
    View(mask, if t.layout.SplitSeq? then [t.a, t.b, t.m, experts] else [t.a, t.m, t.b, experts])
  }

  lemma TiledAt(t: Tiling, mask: Tensor<real>, rows: nat, seqLen: nat, experts: nat, i: nat, j: nat, k: nat, e: nat)
    requires t.Covers(rows, seqLen) && IsMask(mask) && mask.shape == [rows, seqLen, 1, experts]
    requires i < t.a && j < t.b && k < t.m && e < experts
    ensures t.Row(i, k) < rows && t.Pos(j, k) < seqLen
    ensures At4(mask, t.Row(i, k), t.Pos(j, k), 0, e)
            == if t.layout.SplitSeq? then At4(Tiled(t, mask, rows, seqLen, experts), i, j, k, e)
               else At4(Tiled(t, mask, rows, seqLen, experts), i, k, j, e)
  {
    t.InBounds(rows, seqLen, i, j, k);
    DropThird4(rows, seqLen, experts, t.Row(i, k), t.Pos(j, k), e);
    if t.layout.SplitSeq? {
      MergeMiddle4(t.a, t.b, t.m, experts, i, j, k, e, seqLen, t.Pos(j, k));
    } else {
      MergeFirst4(t.a, t.m, t.b, experts, i, k, j, e, rows, t.Row(i, k));
    }
  }

  /** The manual path's mask: a tile is live for an expert exactly when one of its tokens selected it. */
  function ManualMask(t: Tiling, metadata: Tensor<int>, rows: nat, seqLen: nat, experts: nat): (mask: Tensor<real>)
    requires Routed(metadata, t, rows, seqLen)
    ensures IsMask(mask) && mask.shape == [t.a, t.b, 1, experts]
    ensures forall i: nat, j: nat, e: nat | i < t.a && j < t.b && e < experts ::
              At4(mask, i, j, 0, e) == if TileWants(metadata, t, rows, seqLen, i, j, e) then 1.0 else 0.0
  {
    var scattered := ScatterOnes(DropLead(metadata), experts);
    var tiled := Tiled(t, scattered, rows, seqLen, experts);
    var dim := if t.layout.SplitSeq? then 2 else 1;
    var mask := TileMask(tiled, dim);
    assert forall i: nat, j: nat, e: nat | i < t.a && j < t.b && e < experts ::
        At4(mask, i, j, 0, e) == if TileWants(metadata, t, rows, seqLen, i, j, e) then 1.0 else 0.0 by {
      forall i: nat, j: nat, e: nat | i < t.a && j < t.b && e < experts
        ensures AnyToken(tiled, dim, i, j, e, t.m) <==> TileWants(metadata, t, rows, seqLen, i, j, e)
      {
        forall k: nat | k < t.m
          ensures t.Row(i, k) < rows && t.Pos(j, k) < seqLen
          ensures Selected(metadata, t.Row(i, k), t.Pos(j, k), e)
                  <==> (if dim == 1 then At4(tiled, i, k, j, e) else At4(tiled, i, j, k, e)) == 1.0
        {
          TiledAt(t, scattered, rows, seqLen, experts, i, j, k, e);
          ScatteredRows(metadata, experts, t.Row(i, k), t.Pos(j, k), e);
        }
      }
    }
    mask
  }

  // ---- the fused path: chunks of m consecutive tokens stand in for the tiles ----

  /** The number of tile (i, j), which is also the chunk whose mask it is given. */
  function TileNumber(t: Tiling, i: nat, j: nat): nat {
    i * t.b + j
  }

  lemma ChunkCount(t: Tiling, rows: nat, seqLen: nat)
    requires t.Covers(rows, seqLen)
    ensures Chunks(rows, seqLen, t.m) == t.a * t.b
  {
    TileSizes(t, rows, seqLen);
    Size3(t.a, t.b, t.m);
    QuotientRemainder(t.a * t.b, t.m - 1, t.m);
  }

  /** Tile (i, j) is live for expert e on the fused path: the chunk of the same number has the expert. */
  ghost predicate FusedLive(metadata: Tensor<int>, t: Tiling, rows: nat, seqLen: nat, i: nat, j: nat, e: int)
    requires Routed(metadata, t, rows, seqLen)
  {
    Hit(metadata, t.m, rows, 0, TileNumber(t, i, j), e)
  }

  lemma ChunkView(a: nat, b: nat, experts: nat, i: nat, j: nat, e: nat, ab: nat, n: nat)
    requires i < a && j < b && e < experts && ab == a * b && n == i * b + j
    ensures n < ab
    ensures SamePlace([1, 1, ab, experts], [0, 0, n, e], [a, b, 1, experts], [i, j, 0, e])
  {
    DigitBound(i, a, j, b);
    DropThird4(a, b, experts, i, j, e);
    MergeFirst3(a, b, experts, i, j, e, ab, n);
    DropFirst3(ab, experts, n, e);
    DropFirst4(1, ab, experts, 0, n, e);
  }

  method FusedMask(t: Tiling, topk: Tensor<real>, metadata: Tensor<int>, rows: nat, seqLen: nat, experts: nat)
    returns (mask: Tensor<real>)
    requires Routed(metadata, t, rows, seqLen) && ExpertIds(metadata, experts) && Scores(topk, metadata, experts)
    ensures IsMask(mask) && mask.shape == [t.a, t.b, 1, experts]
    ensures forall i: nat, j: nat, e: nat | i < t.a && j < t.b && e < experts ::
              At4(mask, i, j, 0, e) == if FusedLive(metadata, t, rows, seqLen, i, j, e) then 1.0 else 0.0
  {
    var mapping, reduced := TokenRemap(topk, metadata, experts, t.m);
    ChunkCount(t, rows, seqLen);
    var ab := t.a * t.b;
    Size4(1, 1, ab, experts);
    Size4(t.a, t.b, 1, experts);
    mask := View(reduced, [t.a, t.b, 1, experts]);
    forall i: nat, j: nat, e: nat | i < t.a && j < t.b && e < experts
      ensures TileNumber(t, i, j) < ab
      ensures At4(mask, i, j, 0, e) == At4(reduced, 0, 0, TileNumber(t, i, j), e)
    {
      ChunkView(t.a, t.b, experts, i, j, e, ab, TileNumber(t, i, j));
    }
    Each4(mask, (x: real) => x == 0.0 || x == 1.0);
  }

  lemma ChunkIndex(i: nat, b: nat, j: nat, m: nat, k: nat)
    requires k < m
    ensures ((i * b + j) * m + k) / m == i * b + j
  {
    QuotientRemainder(i * b + j, k, m);
  }

  /** Cut along the sequence, or when decoding, a token's chunk is its tile. */
  lemma ChunkIsTile(t: Tiling, rows: nat, seqLen: nat, i: nat, j: nat, k: nat)
    requires t.Covers(rows, seqLen) && !t.layout.SplitBatch?
    requires i < t.a && j < t.b && k < t.m
    ensures ChunkOf(t.Row(i, k), t.Pos(j, k), seqLen, t.m) == TileNumber(t, i, j)
  {
    RegroupIndex(i, t.b, j, t.m, k);
    ChunkIndex(i, t.b, j, t.m, k);
  }
}
