/** How A2aSparseMLP cuts the dispatched tokens into tiles, and puts expert outputs back. */
module Tiles {
  import opened Tensors
  import opened Experts
  import opened MoeOps

  // ---- tiles ----

  datatype Layout = SplitSeq | Decode | SplitBatch

  /** `a * b` tiles of `m` tokens, cut along the sequence or along the replicated batch. */
  datatype Tiling = Tiling(layout: Layout, a: nat, b: nat, m: nat) {
    predicate Covers(rows: nat, seqLen: nat) {
      && m > 0
      && match layout
         case SplitSeq => rows == a && seqLen == b * m
         case Decode => rows == a * m && seqLen == 1 && b == 1
         case SplitBatch => rows == a * m && seqLen == b
    }

    /** The batch row of token k of tile (i, j). */
    function Row(i: nat, k: nat): nat {
      if layout.SplitSeq? then i else i * m + k
    }

    /** The sequence position of token k of tile (i, j). */
    function Pos(j: nat, k: nat): nat {
      match layout
      case SplitSeq => j * m + k
      case Decode => 0
      case SplitBatch => j
    }

    lemma InBounds(rows: nat, seqLen: nat, i: nat, j: nat, k: nat)
      requires Covers(rows, seqLen) && i < a && j < b && k < m
      ensures Row(i, k) < rows && Pos(j, k) < seqLen
    {
      DigitBound(i, a, k, m);
      DigitBound(j, b, k, m);
    }
  }

  lemma SwapIsPermutation()
    ensures IsPermutation([0, 2, 1]) && IsPermutation([0, 1, 3, 2])
    ensures IsPermutation([3, 0, 1, 2]) && IsPermutation([2, 0, 1]) && IsPermutation([3, 0, 2, 1])
  {
    var p, q, r, u, v: seq<nat> := [0, 2, 1], [0, 1, 3, 2], [3, 0, 1, 2], [2, 0, 1], [3, 0, 2, 1];
    assert p[0] == 0 && p[2] == 1 && p[1] == 2;
    assert q[0] == 0 && q[1] == 1 && q[3] == 2 && q[2] == 3;
    assert r[1] == 0 && r[2] == 1 && r[3] == 2 && r[0] == 3;
    assert u[1] == 0 && u[2] == 1 && u[0] == 2;
    assert v[1] == 0 && v[3] == 1 && v[2] == 2 && v[0] == 3;
  }

  function Permute3<T>(t: Tensor<T>, p: seq<nat>): (r: Tensor<T>)
    requires t.Valid() && |t.shape| == 3 && (p == [0, 2, 1] || p == [2, 0, 1])
    ensures r.Valid() && r.shape == [t.shape[p[0]], t.shape[p[1]], t.shape[p[2]]]
  {
    SwapIsPermutation();
    Permute(t, p)
  }

  lemma Gather3(i: seq<nat>, p: seq<nat>)
    requires |i| == 3 && IsPermutation(p) && (p == [0, 2, 1] || p == [2, 0, 1])
    ensures Gather(i, p) == [i[p[0]], i[p[1]], i[p[2]]]
  {
    hide IsPermutation;
  }

  lemma Permute3At<T>(t: Tensor<T>, p: seq<nat>, i: seq<nat>)
    requires t.Valid() && |t.shape| == 3 && (p == [0, 2, 1] || p == [2, 0, 1])
    requires InRange(t.shape, i)
    ensures InRange(Permute3(t, p).shape, [i[p[0]], i[p[1]], i[p[2]]])
    ensures At(Permute3(t, p), [i[p[0]], i[p[1]], i[p[2]]]) == At(t, i)
  {
    SwapIsPermutation();
    PermuteAt(t, p, i);
    Gather3(i, p);
  }

  predicate Order4(p: seq<nat>) {
    p == [0, 1, 3, 2] || p == [3, 0, 1, 2] || p == [3, 0, 2, 1]
  }

  function Permute4<T>(t: Tensor<T>, p: seq<nat>): (r: Tensor<T>)
    requires t.Valid() && |t.shape| == 4 && Order4(p)
    ensures r.Valid() && r.shape == [t.shape[p[0]], t.shape[p[1]], t.shape[p[2]], t.shape[p[3]]]
  {
    SwapIsPermutation();
    Permute(t, p)
  }

  lemma Gather4(i: seq<nat>, p: seq<nat>)
    requires |i| == 4 && IsPermutation(p) && Order4(p)
    ensures Gather(i, p) == [i[p[0]], i[p[1]], i[p[2]], i[p[3]]]
  {
    hide IsPermutation;
  }

  lemma Permute4At<T>(t: Tensor<T>, p: seq<nat>, i: seq<nat>)
    requires t.Valid() && |t.shape| == 4 && Order4(p)
    requires InRange(t.shape, i)
    ensures InRange(Permute4(t, p).shape, [i[p[0]], i[p[1]], i[p[2]], i[p[3]]])
    ensures At(Permute4(t, p), [i[p[0]], i[p[1]], i[p[2]], i[p[3]]]) == At(t, i)
  {
    SwapIsPermutation();
    PermuteAt(t, p, i);
    Gather4(i, p);
  }

  lemma TileSizes(t: Tiling, rows: nat, seqLen: nat)
    requires t.Covers(rows, seqLen)
    ensures Size([1, rows, seqLen]) == rows * seqLen
    ensures Size([t.a, t.b, t.m]) == Size([t.a, t.m, t.b]) == rows * seqLen
  {
    Size3(1, rows, seqLen); Size3(t.a, t.b, t.m); Size3(t.a, t.m, t.b);
    RegroupSize(t.a, t.b, t.m);
    RegroupSize(t.a, t.m, t.b);
  }

  /** The dispatched rows [1, BD, S] as tiles [A, B, M]. */
  function Load(t: Tiling, d: Tensor<Vec>, rows: nat, seqLen: nat): (tiles: Tensor<Vec>)
    requires t.Covers(rows, seqLen) && d.Valid() && d.shape == [1, rows, seqLen]
    ensures tiles.Valid() && tiles.shape == [t.a, t.b, t.m]
  {
    TileSizes(t, rows, seqLen);
    match t.layout
    case SplitSeq => View(d, [t.a, t.b, t.m])
    case Decode => View(d, [t.a, 1, t.m])
    case SplitBatch => Permute3(View(d, [t.a, t.m, t.b]), [0, 2, 1])
  }

  /** Token k of tile (i, j) is the dispatched row of its own batch row and position. */
  lemma LoadAt(t: Tiling, d: Tensor<Vec>, rows: nat, seqLen: nat, i: nat, j: nat, k: nat)
    requires t.Covers(rows, seqLen) && d.Valid() && d.shape == [1, rows, seqLen]
    requires i < t.a && j < t.b && k < t.m
    ensures t.Row(i, k) < rows && t.Pos(j, k) < seqLen
    ensures At3(Load(t, d, rows, seqLen), i, j, k) == At3(d, 0, t.Row(i, k), t.Pos(j, k))
  {
    t.InBounds(rows, seqLen, i, j, k);
    TileSizes(t, rows, seqLen);
    DropFirst3(rows, seqLen, t.Row(i, k), t.Pos(j, k));
    var from: seq<nat> := [0, t.Row(i, k), t.Pos(j, k)];
    match t.layout
    case SplitSeq =>
      MergeLast3(t.a, t.b, t.m, i, j, k, seqLen, t.Pos(j, k));
      ViewAt(d, [t.a, t.b, t.m], from, [i, j, k]);
    case Decode =>
      MergeFirst3(t.a, t.m, 1, i, k, 0, rows, t.Row(i, k));
      DropSecond3(t.a, t.m, i, k);
      MergeLast3(t.a, t.m, 1, i, k, 0, t.m, k);
      ViewAt(d, [t.a, 1, t.m], from, [i, j, k]);
    case SplitBatch =>
      MergeFirst3(t.a, t.m, t.b, i, k, j, rows, t.Row(i, k));
      ViewAt(d, [t.a, t.m, t.b], from, [i, k, j]);
      Permute3At(View(d, [t.a, t.m, t.b]), [0, 2, 1], [i, k, j]);
  }

  lemma LoadRows(t: Tiling, d: Tensor<Vec>, rows: nat, seqLen: nat, width: nat)
    requires t.Covers(rows, seqLen) && Rows(d, width) && d.shape == [1, rows, seqLen]
    ensures Rows(Load(t, d, rows, seqLen), width)
  {
    var tiles := Load(t, d, rows, seqLen);
    forall i: nat, j: nat, k: nat | In3(tiles.shape, i, j, k) ensures |At3(tiles, i, j, k)| == width {
      LoadAt(t, d, rows, seqLen, i, j, k);
      assert At3(tiles, i, j, k) == d.data[Flat(d.shape, [0, t.Row(i, k), t.Pos(j, k)])];
    }
    Each3(tiles, (v: Vec) => |v| == width);
  }

  lemma StoreSizes(t: Tiling, rows: nat, seqLen: nat, experts: nat)
    requires t.Covers(rows, seqLen)
    ensures Size([experts, rows, seqLen]) == experts * (rows * seqLen)
    ensures Size([experts, t.a, t.b, t.m]) == Size([experts, t.a, t.m, t.b]) == experts * (rows * seqLen)
    ensures t.layout.Decode? ==>
              && Size([t.a, t.b, t.m, experts]) == Size([t.a, t.m, experts])
              && Size([experts, t.a, t.m]) == Size([experts, rows]) == Size([experts, 1, rows])
  {
    TileSizes(t, rows, seqLen);
    Size3(experts, rows, seqLen); Size4(experts, t.a, t.b, t.m); Size4(experts, t.a, t.m, t.b);
    Size3(t.a, t.b, t.m); Size3(t.a, t.m, t.b);
    RegroupSize(experts, rows, seqLen);
    RegroupSize(experts * t.a, t.b, t.m); RegroupSize(experts, t.a, t.b * t.m); RegroupSize(t.a, t.b, t.m);
    RegroupSize(experts * t.a, t.m, t.b); RegroupSize(experts, t.a, t.m * t.b); RegroupSize(t.a, t.m, t.b);
    if t.layout.Decode? {
      Size4(t.a, 1, t.m, experts); Size3(t.a, t.m, experts);
      Size3(experts, t.a, t.m); Size2(experts, rows); Size3(experts, 1, rows);
      RegroupSize(experts, t.a, t.m);
    }
  }

  /** The expert outputs [A, B, M, E], brought to [E, BD, S], or to [E, 1, BD] when decoding. */
  function Store(t: Tiling, y: Tensor<Vec>, rows: nat, seqLen: nat, experts: nat): (out: Tensor<Vec>)
    requires t.Covers(rows, seqLen) && y.Valid() && y.shape == [t.a, t.b, t.m, experts]
    ensures out.Valid() && out.shape == TokenShape(t.layout.Decode?, experts, rows, seqLen)
  {
    StoreSizes(t, rows, seqLen, experts);
    match t.layout
    case SplitSeq =>
      View(Permute4(y, [3, 0, 1, 2]), [experts, rows, seqLen])
    case Decode =>
      View(View(Permute3(View(y, [t.a, t.m, experts]), [2, 0, 1]), [experts, rows]), [experts, 1, rows])
    case SplitBatch =>
      View(Permute4(y, [3, 0, 2, 1]), [experts, rows, seqLen])
  }

  lemma StoreSplitSeqAt(t: Tiling, y: Tensor<Vec>, rows: nat, seqLen: nat, experts: nat, i: nat, j: nat, k: nat, e: nat)
    requires t.Covers(rows, seqLen) && y.Valid() && y.shape == [t.a, t.b, t.m, experts]
    requires t.layout.SplitSeq? && i < t.a && j < t.b && k < t.m && e < experts
    requires t.Row(i, k) < rows && t.Pos(j, k) < seqLen
    ensures AtToken(Store(t, y, rows, seqLen, experts), t.layout.Decode?, e, t.Row(i, k), t.Pos(j, k))
            == At4(y, i, j, k, e)
  {
    var moved := Permute4(y, [3, 0, 1, 2]);
    assert At(moved, [e, i, j, k]) == At(y, [i, j, k, e]) by { Permute4At(y, [3, 0, 1, 2], [i, j, k, e]); }
    var to, idx := [experts, rows, seqLen], [e, i, t.Pos(j, k)];
    assert SamePlace(moved.shape, [e, i, j, k], to, idx) by {
      MergeLast4(experts, t.a, t.b, t.m, e, i, j, k, seqLen, t.Pos(j, k));
    }
    assert At(View(moved, to), idx) == At(moved, [e, i, j, k]) by {
      ViewAt(moved, to, [e, i, j, k], idx);
    }
  }

  lemma StoreDecodeAt(t: Tiling, y: Tensor<Vec>, rows: nat, seqLen: nat, experts: nat, i: nat, j: nat, k: nat, e: nat)
    requires t.Covers(rows, seqLen) && y.Valid() && y.shape == [t.a, t.b, t.m, experts]
    requires t.layout.Decode? && i < t.a && j < t.b && k < t.m && e < experts
    requires t.Row(i, k) < rows && t.Pos(j, k) < seqLen
    ensures AtToken(Store(t, y, rows, seqLen, experts), t.layout.Decode?, e, t.Row(i, k), t.Pos(j, k))
            == At4(y, i, j, k, e)
  {
    var row := t.Row(i, k);
    StoreSizes(t, rows, seqLen, experts);
    var squeezed := View(y, [t.a, t.m, experts]);
    assert At(squeezed, [i, k, e]) == At(y, [i, j, k, e]) by {
      DropSecond4(t.a, t.m, experts, i, k, e);
      ViewAt(y, [t.a, t.m, experts], [i, 0, k, e], [i, k, e]);
    }
    var moved := Permute3(squeezed, [2, 0, 1]);
    assert At(moved, [e, i, k]) == At(squeezed, [i, k, e]) by { Permute3At(squeezed, [2, 0, 1], [i, k, e]); }
    var merged := View(moved, [experts, rows]);
    assert InRange([experts, rows], [e, row]) && At(merged, [e, row]) == At(moved, [e, i, k]) by {
      MergeLast3(experts, t.a, t.m, e, i, k, rows, row);
      ViewAt(moved, [experts, rows], [e, i, k], [e, row]);
    }
    assert At(View(merged, [experts, 1, rows]), [e, 0, row]) == At(merged, [e, row]) by {
      DropSecond3(experts, rows, e, row);
      ViewAt(merged, [experts, 1, rows], [e, row], [e, 0, row]);
    }
  }

  lemma StoreSplitBatchAt(t: Tiling, y: Tensor<Vec>, rows: nat, seqLen: nat, experts: nat, i: nat, j: nat, k: nat,
                          e: nat)
    requires t.Covers(rows, seqLen) && y.Valid() && y.shape == [t.a, t.b, t.m, experts]
    requires t.layout.SplitBatch? && i < t.a && j < t.b && k < t.m && e < experts
    requires t.Row(i, k) < rows && t.Pos(j, k) < seqLen
    ensures AtToken(Store(t, y, rows, seqLen, experts), t.layout.Decode?, e, t.Row(i, k), t.Pos(j, k))
            == At4(y, i, j, k, e)
  {
    var moved := Permute4(y, [3, 0, 2, 1]);
    assert At(moved, [e, i, k, j]) == At(y, [i, j, k, e]) by { Permute4At(y, [3, 0, 2, 1], [i, j, k, e]); }
    var to, idx := [experts, rows, seqLen], [e, t.Row(i, k), j];
    assert SamePlace(moved.shape, [e, i, k, j], to, idx) by {
      MergeMiddle4(experts, t.a, t.m, t.b, e, i, k, j, rows, t.Row(i, k));
    }
    assert At(View(moved, to), idx) == At(moved, [e, i, k, j]) by {
      ViewAt(moved, to, [e, i, k, j], idx);
    }
  }

  /** Storing puts the output of expert e for token k of tile (i, j) at that token's own place. */
  lemma StoreAt(t: Tiling, y: Tensor<Vec>, rows: nat, seqLen: nat, experts: nat, i: nat, j: nat, k: nat, e: nat)
    requires t.Covers(rows, seqLen) && y.Valid() && y.shape == [t.a, t.b, t.m, experts]
    requires i < t.a && j < t.b && k < t.m && e < experts
    ensures t.Row(i, k) < rows && t.Pos(j, k) < seqLen
    ensures AtToken(Store(t, y, rows, seqLen, experts), t.layout.Decode?, e, t.Row(i, k), t.Pos(j, k))
            == At4(y, i, j, k, e)
  {
    t.InBounds(rows, seqLen, i, j, k);
    match t.layout
    case SplitSeq => StoreSplitSeqAt(t, y, rows, seqLen, experts, i, j, k, e);
    case Decode => StoreDecodeAt(t, y, rows, seqLen, experts, i, j, k, e);
    case SplitBatch => StoreSplitBatchAt(t, y, rows, seqLen, experts, i, j, k, e);
  }
}
