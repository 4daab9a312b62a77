/** CPU semantics of the mixture-of-experts operators. */
module MoeOps {
  import opened Tensors
  import opened Experts

  ghost predicate Rows(t: Tensor<Vec>, width: nat) {
    Each(t, (v: Vec) => |v| == width)
  }

  function Row3(t: Tensor<Vec>, width: nat, i: nat, j: nat, k: nat): (v: Vec)
    requires Rows(t, width) && In3(t.shape, i, j, k)
    ensures |v| == width && v == At3(t, i, j, k)
  {
    assert At3(t, i, j, k) == t.data[Flat(t.shape, [i, j, k])];
    At3(t, i, j, k)
  }

  ghost predicate IsMask(t: Tensor<real>) {
    Each(t, (x: real) => x == 0.0 || x == 1.0)
  }

  ghost predicate ExpertIds(t: Tensor<int>, experts: nat) {
    Each(t, (e: int) => 0 <= e < experts)
  }

  predicate Weights(w: seq<Matrix>, rows: nat, cols: nat) {
    forall e :: 0 <= e < |w| ==> IsMatrix(w[e], rows, cols)
  }

  // ---- dispatch ----

  /** The token that a replicated row is a copy of. */
  function Original(row: nat, tokens: nat): (b: nat)
    requires tokens > 0
    ensures b < tokens && (row < tokens ==> b == row)
  {
    row % tokens
  }

  /** `t.repeat(1, copies, ...)` on [1, B, S]. */
  function RepeatRows3<T>(t: Tensor<T>, copies: nat): (r: Tensor<T>)
    requires t.Valid() && |t.shape| == 3 && t.shape[0] == 1
    ensures r.Valid() && r.shape == [1, t.shape[1] * copies, t.shape[2]]
    ensures forall row: nat, s: nat | In3(r.shape, 0, row, s) ::
              t.shape[1] > 0 && At3(r, 0, row, s) == At3(t, 0, Original(row, t.shape[1]), s)
  {
    Build3(1, t.shape[1] * copies, t.shape[2],
      (i: nat, row: nat, s: nat) requires i < 1 && row < t.shape[1] * copies && s < t.shape[2] =>
        QuotientBound(row, copies, t.shape[1]);
        At3(t, 0, Original(row, t.shape[1]), s))
  }

  /** `t.repeat(1, copies, ...)` on [1, B, S, K]. */
  function RepeatRows4<T>(t: Tensor<T>, copies: nat): (r: Tensor<T>)
    requires t.Valid() && |t.shape| == 4 && t.shape[0] == 1
    ensures r.Valid() && r.shape == [1, t.shape[1] * copies, t.shape[2], t.shape[3]]
    ensures forall row: nat, s: nat, k: nat | In4(r.shape, 0, row, s, k) ::
              t.shape[1] > 0 && At4(r, 0, row, s, k) == At4(t, 0, Original(row, t.shape[1]), s, k)
  {
    Build4(1, t.shape[1] * copies, t.shape[2], t.shape[3],
      (i: nat, row: nat, s: nat, k: nat)
        requires i < 1 && row < t.shape[1] * copies && s < t.shape[2] && k < t.shape[3] =>
        QuotientBound(row, copies, t.shape[1]);
        At4(t, 0, Original(row, t.shape[1]), s, k))
  }

  // ---- sparse_matmul ----

  /** One row of the product whose weights are skipped tile by tile. */
  function TileProduct(a: Tensor<Vec>, w: seq<Matrix>, mask: Tensor<real>, n: nat, i: nat, j: nat, e: nat, m: nat): Vec
    requires a.Valid() && In3(a.shape, i, j, m) && e < |w| && IsMatrix(w[e], |At3(a, i, j, m)|, n)
    requires mask.Valid() && In4(mask.shape, i, j, 0, e)
  {
    Scale(RowMul(At3(a, i, j, m), w[e], n), At4(mask, i, j, 0, e))
  }

  /** `sparse_matmul` with is_input_b_sparse: [A, B, M] rows times one matrix per expert, as [A, B, 1, E, M]. */
  method SparseMatmulB(a: Tensor<Vec>, w: seq<Matrix>, mask: Tensor<real>, k: nat, n: nat)
    returns (out: Tensor<Vec>)
    requires |a.shape| == 3 && Rows(a, k) && Weights(w, k, n)
    requires mask.Valid() && mask.shape == [a.shape[0], a.shape[1], 1, |w|]
    ensures Rows(out, n) && out.shape == [a.shape[0], a.shape[1], 1, |w|, a.shape[2]]
    ensures forall i: nat, j: nat, e: nat, m: nat | In5(out.shape, i, j, 0, e, m) ::
              At5(out, i, j, 0, e, m) == TileProduct(a, w, mask, n, i, j, e, m)
  {
    hide RowMul, Scale, Flat, Size;
    var A, B, M := a.shape[0], a.shape[1], a.shape[2];
    out := Build5(A, B, 1, |w|, M, (i: nat, j: nat, o: nat, e: nat, m: nat) => Zeros(n));
    for e := 0 to |w|
      invariant out.Valid() && out.shape == [A, B, 1, |w|, M]
      invariant forall i: nat, j: nat, e': nat, m: nat | In5(out.shape, i, j, 0, e', m) ::
                  At5(out, i, j, 0, e', m) == if e' < e then TileProduct(a, w, mask, n, i, j, e', m) else Zeros(n)
    {
      if exists i, j :: 0 <= i < A && 0 <= j < B && At4(mask, i, j, 0, e) != 0.0 {
        var before := out;
        out := Build5(A, B, 1, |w|, M,
          (i: nat, j: nat, o: nat, e': nat, m: nat) requires i < A && j < B && o < 1 && e' < |w| && m < M =>
            if e' == e then TileProduct(a, w, mask, n, i, j, e, m) else At5(before, i, j, o, e', m));
      } else {
        forall i: nat, j: nat, m: nat | i < A && j < B && m < M
          ensures TileProduct(a, w, mask, n, i, j, e, m) == Zeros(n)
        {
          ScaleByMask(RowMul(At3(a, i, j, m), w[e], n));
        }
      }
    }
    forall i: nat, j: nat, o: nat, e: nat, m: nat | In5(out.shape, i, j, o, e, m)
      ensures |At5(out, i, j, o, e, m)| == n
    {
      assert At5(out, i, j, 0, e, m) == TileProduct(a, w, mask, n, i, j, e, m);
    }
    Each5(out, (v: Vec) => |v| == n);
  }

  /** One row of the product whose activations are skipped block by block. */
  function BlockProduct(a: Tensor<Vec>, w: seq<Matrix>, mask: Tensor<real>, n: nat, i: nat, e: nat, m: nat): Vec
    requires a.Valid() && In3(a.shape, i, e, m) && e < |w| && IsMatrix(w[e], |At3(a, i, e, m)|, n)
    requires mask.Valid() && In4(mask.shape, 0, 0, i, e)
  {
    Scale(RowMul(At3(a, i, e, m), w[e], n), At4(mask, 0, 0, i, e))
  }

  /** `sparse_matmul` with is_input_a_sparse: [A, E, M] rows, each under its own expert's matrix. */
  method SparseMatmulA(a: Tensor<Vec>, w: seq<Matrix>, mask: Tensor<real>, k: nat, n: nat)
    returns (out: Tensor<Vec>)
    requires |a.shape| == 3 && a.shape[1] == |w| && Rows(a, k) && Weights(w, k, n)
    requires mask.Valid() && mask.shape == [1, 1, a.shape[0], |w|]
    ensures Rows(out, n) && out.shape == a.shape
    ensures forall i: nat, e: nat, m: nat | In3(out.shape, i, e, m) ::
              At3(out, i, e, m) == BlockProduct(a, w, mask, n, i, e, m)
  {
    var A, M := a.shape[0], a.shape[2];
    out := Build3(A, |w|, M, (i: nat, e: nat, m: nat) => Zeros(n));
    for e := 0 to |w|
      invariant out.Valid() && out.shape == [A, |w|, M]
      invariant forall i: nat, e': nat, m: nat | In3(out.shape, i, e', m) ::
                  At3(out, i, e', m) == if e' < e then BlockProduct(a, w, mask, n, i, e', m) else Zeros(n)
    {
      if exists i :: 0 <= i < A && At4(mask, 0, 0, i, e) != 0.0 {
        var before := out;
        out := Build3(A, |w|, M, (i: nat, e': nat, m: nat) requires i < A && e' < |w| && m < M =>
          if e' == e then BlockProduct(a, w, mask, n, i, e, m) else At3(before, i, e', m));
      } else {
        forall i: nat, m: nat | i < A && m < M
          ensures BlockProduct(a, w, mask, n, i, e, m) == Zeros(n)
        {
          ScaleByMask(RowMul(At3(a, i, e, m), w[e], n));
        }
      }
    }
    Each3(out, (v: Vec) => |v| == n);
  }

  // ---- masks ----

  /** Whether row (i, j) of a [P, Q, K] index tensor names expert e. */
  predicate Picks(index: Tensor<int>, i: nat, j: nat, e: int)
    requires index.Valid() && |index.shape| == 3 && i < index.shape[0] && j < index.shape[1]
  {
    exists k :: 0 <= k < index.shape[2] && At3(index, i, j, k) == e
  }

  /** `scatter_(dim=-1, index.unsqueeze(2), ones)` into a zeroed [P, Q, 1, E] tensor. */
  function ScatterOnes(index: Tensor<int>, experts: nat): (mask: Tensor<real>)
    requires |index.shape| == 3 && index.Valid()
    ensures IsMask(mask) && mask.shape == [index.shape[0], index.shape[1], 1, experts]
    ensures forall i: nat, j: nat, e: nat | In4(mask.shape, i, j, 0, e) ::
              At4(mask, i, j, 0, e) == if Picks(index, i, j, e) then 1.0 else 0.0
  {
    var mask := Build4(index.shape[0], index.shape[1], 1, experts,
      (i: nat, j: nat, o: nat, e: nat) requires i < index.shape[0] && j < index.shape[1] =>
        if Picks(index, i, j, e) then 1.0 else 0.0);
    Each4(mask, (x: real) => x == 0.0 || x == 1.0);
    mask
  }

  /** Whether token (row, s) of a [1, R, S, K] routing tensor selected expert e. */
  predicate Selected(metadata: Tensor<int>, row: nat, s: nat, e: int)
    requires metadata.Valid() && |metadata.shape| == 4 && metadata.shape[0] == 1
    requires row < metadata.shape[1] && s < metadata.shape[2]
  {
    exists k :: 0 <= k < metadata.shape[3] && At4(metadata, 0, row, s, k) == e
  }

  /** The chunk of `chunkSize` consecutive tokens, in row-major order, that holds token (row, s). */
  function ChunkOf(row: nat, s: nat, seqLen: nat, chunkSize: nat): nat
    requires chunkSize > 0
  {
    (row * seqLen + s) / chunkSize
  }

  function Chunks(rows: nat, seqLen: nat, chunkSize: nat): nat
    requires chunkSize > 0
  {
    (rows * seqLen + chunkSize - 1) / chunkSize
  }

  lemma ChunkInBounds(rows: nat, seqLen: nat, chunkSize: nat, row: nat, s: nat)
    requires chunkSize > 0 && row < rows && s < seqLen
    ensures ChunkOf(row, s, seqLen, chunkSize) < Chunks(rows, seqLen, chunkSize)
  {
    DigitBound(row, rows, s, seqLen);
    var n, q := rows * seqLen + chunkSize - 1, ChunkOf(row, s, seqLen, chunkSize);
    var chunks := n / chunkSize;
    assert n == chunks * chunkSize + n % chunkSize;
    assert row * seqLen + s == q * chunkSize + (row * seqLen + s) % chunkSize;
    assert chunks <= q ==> chunks * chunkSize <= q * chunkSize;
  }

  /** Whether a token before (row, s), in row-major order, falls in chunk c and selected e. */
  ghost predicate Hit(metadata: Tensor<int>, chunkSize: nat, row: nat, s: nat, c: nat, e: int)
    requires metadata.Valid() && |metadata.shape| == 4 && metadata.shape[0] == 1 && chunkSize > 0
  {
    exists r: nat, q: nat ::
      && r < metadata.shape[1] && q < metadata.shape[2]
      && (r < row || (r == row && q < s))
      && ChunkOf(r, q, metadata.shape[2], chunkSize) == c
      && Selected(metadata, r, q, e)
  }

  lemma HitStep(metadata: Tensor<int>, chunkSize: nat, row: nat, s: nat, c: nat, e: int)
    requires metadata.Valid() && |metadata.shape| == 4 && metadata.shape[0] == 1 && chunkSize > 0
    requires row < metadata.shape[1] && s < metadata.shape[2]
    ensures Hit(metadata, chunkSize, row, s + 1, c, e)
            <==> Hit(metadata, chunkSize, row, s, c, e)
                 || (ChunkOf(row, s, metadata.shape[2], chunkSize) == c && Selected(metadata, row, s, e))
  {}

  /** Scores of one entry per token and expert, next to the routing they are for. */
  predicate Scores(topk: Tensor<real>, metadata: Tensor<int>, experts: nat)
    requires |metadata.shape| == 4
  {
    topk.Valid() && topk.shape == [1, metadata.shape[1], metadata.shape[2], experts]
  }

  /** The weights and the mask after the tokens before (row, s), in row-major order. */
  ghost predicate Remapped(mapping: Tensor<real>, reduced: Tensor<real>, topk: Tensor<real>, metadata: Tensor<int>,
                           experts: nat, chunkSize: nat, row: nat, s: nat)
    requires chunkSize > 0 && metadata.Valid() && |metadata.shape| == 4 && metadata.shape[0] == 1
    requires Scores(topk, metadata, experts)
  {
    var rows, seqLen := metadata.shape[1], metadata.shape[2];
    && mapping.Valid() && mapping.shape == [1, rows, seqLen, experts]
    && reduced.Valid() && reduced.shape == [1, 1, Chunks(rows, seqLen, chunkSize), experts]
    && (forall r: nat, q: nat, e: nat | In4(mapping.shape, 0, r, q, e) :: At4(mapping, 0, r, q, e)
          == if (r < row || (r == row && q < s)) && Selected(metadata, r, q, e) then At4(topk, 0, r, q, e) else 0.0)
    && (forall c: nat, e: nat | In4(reduced.shape, 0, 0, c, e) :: At4(reduced, 0, 0, c, e)
          == if Hit(metadata, chunkSize, row, s, c, e) then 1.0 else 0.0)
  }

  /** The innermost loop of the remap: note the scores of the experts one token selected, and mark its chunk. */
  method MarkToken(mapping: Tensor<real>, reduced: Tensor<real>, topk: Tensor<real>, metadata: Tensor<int>,
                   row: nat, s: nat, chunk: nat, experts: nat)
    returns (mapped: Tensor<real>, marked: Tensor<real>)
    requires |metadata.shape| == 4 && metadata.shape[0] == 1 && ExpertIds(metadata, experts)
    requires row < metadata.shape[1] && s < metadata.shape[2]
    requires Scores(topk, metadata, experts) && mapping.Valid() && mapping.shape == topk.shape
    requires reduced.Valid() && |reduced.shape| == 4 && reduced.shape[0] == reduced.shape[1] == 1
    requires reduced.shape[3] == experts
    ensures mapped.Valid() && mapped.shape == mapping.shape && marked.Valid() && marked.shape == reduced.shape
    ensures forall r: nat, q: nat, e: nat | In4(mapping.shape, 0, r, q, e) :: At4(mapped, 0, r, q, e)
              == if r == row && q == s && Selected(metadata, r, q, e) then At4(topk, 0, r, q, e)
                 else At4(mapping, 0, r, q, e)
    ensures forall c: nat, e: nat | In4(reduced.shape, 0, 0, c, e) :: At4(marked, 0, 0, c, e)
              == if c == chunk && Selected(metadata, row, s, e) then 1.0 else At4(reduced, 0, 0, c, e)
  {
    mapped, marked := mapping, reduced;
    for k := 0 to metadata.shape[3]
      invariant mapped.Valid() && mapped.shape == mapping.shape && marked.Valid() && marked.shape == reduced.shape
      invariant forall r: nat, q: nat, e: nat | In4(mapping.shape, 0, r, q, e) :: At4(mapped, 0, r, q, e)
                  == if r == row && q == s && (exists j :: 0 <= j < k && At4(metadata, 0, r, q, j) == e)
                     then At4(topk, 0, r, q, e) else At4(mapping, 0, r, q, e)
      invariant forall c: nat, e: nat | In4(reduced.shape, 0, 0, c, e) :: At4(marked, 0, 0, c, e)
                  == if c == chunk && (exists j :: 0 <= j < k && At4(metadata, 0, row, s, j) == e) then 1.0
                     else At4(reduced, 0, 0, c, e)
    {
      var expert := At4(metadata, 0, row, s, k);
      assert expert == metadata.data[Flat(metadata.shape, [0, row, s, k])];
      mapped := Set4(mapped, 0, row, s, expert, At4(topk, 0, row, s, expert));
      if chunk < reduced.shape[2] {
        marked := Set4(marked, 0, 0, chunk, expert, 1.0);
      }
    }
  }

  method RemapToken(mapping: Tensor<real>, reduced: Tensor<real>, topk: Tensor<real>, metadata: Tensor<int>,
                    experts: nat, chunkSize: nat, row: nat, s: nat)
    returns (mapped: Tensor<real>, marked: Tensor<real>)
    requires |metadata.shape| == 4 && metadata.shape[0] == 1 && ExpertIds(metadata, experts) && chunkSize > 0
    requires row < metadata.shape[1] && s < metadata.shape[2] && Scores(topk, metadata, experts)
    requires Remapped(mapping, reduced, topk, metadata, experts, chunkSize, row, s)
    ensures Remapped(mapped, marked, topk, metadata, experts, chunkSize, row, s + 1)
  {
    hide Hit, ChunkOf, Chunks, Selected;
    var chunk := ChunkOf(row, s, metadata.shape[2], chunkSize);
    ChunkInBounds(metadata.shape[1], metadata.shape[2], chunkSize, row, s);
    mapped, marked := MarkToken(mapping, reduced, topk, metadata, row, s, chunk, experts);
    forall c: nat, e: nat | In4(reduced.shape, 0, 0, c, e)
      ensures At4(marked, 0, 0, c, e) == if Hit(metadata, chunkSize, row, s + 1, c, e) then 1.0 else 0.0
    {
      HitStep(metadata, chunkSize, row, s, c, e);
    }
  }

  lemma NothingHit(metadata: Tensor<int>, chunkSize: nat, c: nat, e: int)
    requires metadata.Valid() && |metadata.shape| == 4 && metadata.shape[0] == 1 && chunkSize > 0
    ensures !Hit(metadata, chunkSize, 0, 0, c, e)
  {}

  lemma NextRowHit(metadata: Tensor<int>, chunkSize: nat, row: nat, c: nat, e: int)
    requires metadata.Valid() && |metadata.shape| == 4 && metadata.shape[0] == 1 && chunkSize > 0
    ensures Hit(metadata, chunkSize, row, metadata.shape[2], c, e) <==> Hit(metadata, chunkSize, row + 1, 0, c, e)
  {}

  lemma NextRemapRow(mapping: Tensor<real>, reduced: Tensor<real>, topk: Tensor<real>, metadata: Tensor<int>,
                     experts: nat, chunkSize: nat, row: nat)
    requires chunkSize > 0 && metadata.Valid() && |metadata.shape| == 4 && metadata.shape[0] == 1
    requires Scores(topk, metadata, experts) && row < metadata.shape[1]
    requires Remapped(mapping, reduced, topk, metadata, experts, chunkSize, row, metadata.shape[2])
    ensures Remapped(mapping, reduced, topk, metadata, experts, chunkSize, row + 1, 0)
  {
    forall c: nat, e: nat
      ensures Hit(metadata, chunkSize, row, metadata.shape[2], c, e) <==> Hit(metadata, chunkSize, row + 1, 0, c, e)
    {
      NextRowHit(metadata, chunkSize, row, c, e);
    }
  }

  /** `moe_expert_token_remap`: the scores of what each token selected, zero elsewhere, and the mask over
      chunks of `chunkSize` consecutive tokens. */
  method TokenRemap(topk: Tensor<real>, metadata: Tensor<int>, experts: nat, chunkSize: nat)
    returns (mapping: Tensor<real>, reduced: Tensor<real>)
    requires |metadata.shape| == 4 && metadata.shape[0] == 1 && ExpertIds(metadata, experts)
    requires chunkSize > 0 && Scores(topk, metadata, experts)
    ensures mapping.Valid() && mapping.shape == topk.shape && reduced.Valid()
    ensures reduced.shape == [1, 1, Chunks(metadata.shape[1], metadata.shape[2], chunkSize), experts]
    ensures forall r: nat, q: nat, e: nat | In4(mapping.shape, 0, r, q, e) :: At4(mapping, 0, r, q, e)
              == if Selected(metadata, r, q, e) then At4(topk, 0, r, q, e) else 0.0
    ensures forall c: nat, e: nat | In4(reduced.shape, 0, 0, c, e) :: At4(reduced, 0, 0, c, e)
              == if Hit(metadata, chunkSize, metadata.shape[1], 0, c, e) then 1.0 else 0.0
  {
    hide Hit, Chunks, Selected, Flat, Size;
    var rows, seqLen := metadata.shape[1], metadata.shape[2];
    mapping := Build4(1, rows, seqLen, experts, (i: nat, r: nat, q: nat, e: nat) => 0.0);
    reduced := Build4(1, 1, Chunks(rows, seqLen, chunkSize), experts, (i: nat, j: nat, c: nat, e: nat) => 0.0);
    forall c: nat, e: nat ensures !Hit(metadata, chunkSize, 0, 0, c, e) {
      NothingHit(metadata, chunkSize, c, e);
    }
    for b := 0 to rows
      invariant Remapped(mapping, reduced, topk, metadata, experts, chunkSize, b, 0)
    {
      for s := 0 to seqLen
        invariant Remapped(mapping, reduced, topk, metadata, experts, chunkSize, b, s)
      {
        mapping, reduced := RemapToken(mapping, reduced, topk, metadata, experts, chunkSize, b, s);
      }
      NextRemapRow(mapping, reduced, topk, metadata, experts, chunkSize, b);
    }
  }

  // ---- combine ----

  predicate InToken(shape: seq<nat>, decode: bool, first: nat, b: nat, s: nat) {
    if decode then In3(shape, first, s, b) else In3(shape, first, b, s)
  }

  /** The entry of token (b, s): at [first, b, s], or at [first, s, b] when decoding. */
  function AtToken<T>(t: Tensor<T>, decode: bool, first: nat, b: nat, s: nat): T
    requires t.Valid() && InToken(t.shape, decode, first, b, s)
  {
    if decode then At3(t, first, s, b) else At3(t, first, b, s)
  }

  function SetToken<T>(t: Tensor<T>, decode: bool, first: nat, b: nat, s: nat, v: T): (r: Tensor<T>)
    requires t.Valid() && InToken(t.shape, decode, first, b, s)
    ensures r.Valid() && r.shape == t.shape
    ensures forall first': nat, b': nat, s': nat | InToken(t.shape, decode, first', b', s') ::
              AtToken(r, decode, first', b', s')
              == if first' == first && b' == b && s' == s then v else AtToken(t, decode, first', b', s')
  {
    if decode then Set3(t, first, s, b, v) else Set3(t, first, b, s, v)
  }

  function TokenShape(decode: bool, first: nat, rows: nat, seqLen: nat): seq<nat> {
    if decode then [first, seqLen, rows] else [first, rows, seqLen]
  }

  /** The order in which the loops of the combine visit the choices. */
  predicate Earlier(k: nat, b: nat, s: nat, k': nat, b': nat, s': nat) {
    b < b' || (b == b' && (s < s' || (s == s' && k < k')))
  }

  /** The sizes of one combine: `rows` tokens come in, replicated; the first `tokens` are kept. */
  datatype Exchange = Exchange(decode: bool, width: nat, experts: nat, rows: nat, seqLen: nat, topK: nat, tokens: nat) {
    predicate Fits(input: Tensor<Vec>, metadata: Tensor<int>) {
      && input.Valid() && input.shape == TokenShape(decode, experts, rows, seqLen)
      && metadata.Valid() && metadata.shape == [1, rows, seqLen, topK]
      && tokens <= rows
    }

    /** What the k-th choice of token (b, s) fetches; nothing for an expert that is not held here. */
    ghost function Fetched(input: Tensor<Vec>, metadata: Tensor<int>, k: nat, b: nat, s: nat): Vec
      requires Fits(input, metadata) && k < topK && b < rows && s < seqLen
    {
      var e := At4(metadata, 0, b, s, k);
      if 0 <= e < experts then AtToken(input, decode, e, b, s) else Zeros(width)
    }

    /** The loops of the combine have stored every choice that comes before (b', s', k'). */
    ghost predicate CombinedUpTo(combined: Tensor<Vec>, input: Tensor<Vec>, metadata: Tensor<int>,
                                 b': nat, s': nat, k': nat)
      requires Fits(input, metadata)
    {
      && combined.Valid() && combined.shape == TokenShape(decode, topK, tokens, seqLen)
      && forall k: nat, b: nat, s: nat | k < topK && b < tokens && s < seqLen ::
           AtToken(combined, decode, k, b, s)
           == if Earlier(k, b, s, k', b', s')
              then Fetched(input, metadata, k, b, s) else Zeros(width)
    }

    /** The output before any choice is stored. */
    function Empty(input: Tensor<Vec>, metadata: Tensor<int>): (combined: Tensor<Vec>)
      requires Fits(input, metadata)
      ensures CombinedUpTo(combined, input, metadata, 0, 0, 0)
    {
      var shape := TokenShape(decode, topK, tokens, seqLen);
      Build3(shape[0], shape[1], shape[2], (i: nat, j: nat, k: nat) => Zeros(width))
    }

    lemma Shaped(combined: Tensor<Vec>, input: Tensor<Vec>, metadata: Tensor<int>, b: nat, s: nat, k: nat)
      requires Fits(input, metadata) && CombinedUpTo(combined, input, metadata, b, s, k)
      ensures combined.Valid() && combined.shape == TokenShape(decode, topK, tokens, seqLen)
    {}

    lemma NextToken(combined: Tensor<Vec>, input: Tensor<Vec>, metadata: Tensor<int>, b: nat, s: nat)
      requires Fits(input, metadata) && CombinedUpTo(combined, input, metadata, b, s, topK)
      ensures CombinedUpTo(combined, input, metadata, b, s + 1, 0)
    {}

    lemma NextRow(combined: Tensor<Vec>, input: Tensor<Vec>, metadata: Tensor<int>, b: nat)
      requires Fits(input, metadata) && CombinedUpTo(combined, input, metadata, b, seqLen, 0)
      ensures CombinedUpTo(combined, input, metadata, b + 1, 0, 0)
    {}

    /** Storing what one more choice fetches, or leaving its place alone when it fetches nothing. */
    lemma NextChoice(before: Tensor<Vec>, after: Tensor<Vec>, input: Tensor<Vec>, metadata: Tensor<int>, b: nat,
                     s: nat, k: nat)
      requires Fits(input, metadata) && b < tokens && s < seqLen && k < topK
      requires CombinedUpTo(before, input, metadata, b, s, k)
      requires after.Valid() && after.shape == before.shape
      requires var e := At4(metadata, 0, b, s, k);
               forall k': nat, b': nat, s': nat | k' < topK && b' < tokens && s' < seqLen ::
                 AtToken(after, decode, k', b', s')
                 == if 0 <= e < experts && k' == k && b' == b && s' == s then AtToken(input, decode, e, b, s)
                    else AtToken(before, decode, k', b', s')
      ensures CombinedUpTo(after, input, metadata, b, s, k + 1)
    {
      forall k': nat, b': nat, s': nat | k' < topK && b' < tokens && s' < seqLen
        ensures AtToken(after, decode, k', b', s')
                == if Earlier(k', b', s', k + 1, b, s) then Fetched(input, metadata, k', b', s') else Zeros(width)
      {
        assert Earlier(k', b', s', k + 1, b, s) <==> Earlier(k', b', s', k, b, s) || (k' == k && b' == b && s' == s);
        assert !Earlier(k, b, s, k, b, s);
      }
    }
  }

  /** `all_to_all_combine`: fetch, for each of the first `tokens` rows, the rows of its selected experts. */
  method Combine(x: Exchange, input: Tensor<Vec>, metadata: Tensor<int>) returns (combined: Tensor<Vec>)
    requires x.Fits(input, metadata)
    ensures x.CombinedUpTo(combined, input, metadata, x.tokens, 0, 0)
  {
    hide x.CombinedUpTo, AtToken, SetToken;
    combined := x.Empty(input, metadata);
    for b := 0 to x.tokens
      invariant x.CombinedUpTo(combined, input, metadata, b, 0, 0)
    {
      for s := 0 to x.seqLen
        invariant x.CombinedUpTo(combined, input, metadata, b, s, 0)
      {
        for k := 0 to x.topK
          invariant x.CombinedUpTo(combined, input, metadata, b, s, k)
        {
          var e := At4(metadata, 0, b, s, k);
          ghost var before := combined;
          x.Shaped(combined, input, metadata, b, s, k);
          if 0 <= e < x.experts {
            combined := SetToken(combined, x.decode, k, b, s, AtToken(input, x.decode, e, b, s));
          }
          x.NextChoice(before, combined, input, metadata, b, s, k);
        }
        x.NextToken(combined, input, metadata, b, s);
      }
      x.NextRow(combined, input, metadata, b);
    }
  }
}
