/** A2aSparseMLP from routed tokens to combined expert outputs, on its three paths. */
module A2aForward {
  import opened Tensors
  import opened Experts
  import opened MoeOps
  import opened Tiles
  import opened TileMasks
  import opened A2aMlp

  datatype Path = Dense | Fused | Manual

  /** The tile size fits a dimension. */
  predicate Splits(size: nat, m: nat)
    requires m > 0
  {
    size % m == 0 && size >= m
  }

  /** Prefer the sequence; fall back to the replicated batch. */
  function Choose(rows: nat, seqLen: nat, m: nat): (t: Tiling)
    requires m > 0 && (Splits(seqLen, m) || Splits(rows, m))
    ensures t.Covers(rows, seqLen) && t.m == m
    ensures t.layout.SplitBatch? <==> !Splits(seqLen, m) && seqLen != 1
  {
    if Splits(seqLen, m) then Tiling(SplitSeq, rows, seqLen / m, m)
    else if seqLen == 1 then Tiling(Decode, rows / m, 1, m)
    else Tiling(SplitBatch, rows / m, seqLen, m)
  }

  /** The tile of token (row, s). */
  function TileRow(t: Tiling, row: nat): nat
    requires t.m > 0
  {
    if t.layout.SplitSeq? then row else row / t.m
  }

  function TileCol(t: Tiling, s: nat): nat
    requires t.m > 0
  {
    match t.layout
    case SplitSeq => s / t.m
    case Decode => 0
    case SplitBatch => s
  }

  lemma TileOfToken(t: Tiling, rows: nat, seqLen: nat, row: nat, s: nat) returns (k: nat)
    requires t.Covers(rows, seqLen) && row < rows && s < seqLen
    ensures TileRow(t, row) < t.a && TileCol(t, s) < t.b && k < t.m
    ensures t.Row(TileRow(t, row), k) == row && t.Pos(TileCol(t, s), k) == s
  {
    match t.layout
    case SplitSeq =>
      var j;
      j, k := Digits(s, t.b, t.m);
      QuotientRemainder(j, k, t.m);
    case Decode =>
      var i;
      i, k := Digits(row, t.a, t.m);
      QuotientRemainder(i, k, t.m);
    case SplitBatch =>
      var i;
      i, k := Digits(row, t.a, t.m);
      QuotientRemainder(i, k, t.m);
  }

  // ---- dispatch: every token replicated once per device of the dispatch axis ----

  predicate Batch(x: Tensor<Vec>, ids: Tensor<int>, B: nat, S: nat, K: nat) {
    && x.Valid() && x.shape == [B, S]
    && ids.Valid() && ids.shape == [B, S, K]
  }

  /** `all_to_all_dispatch` of the tokens: [B, S] to [1, B * D, S]. */
  function DispatchTokens(x: Tensor<Vec>, B: nat, S: nat, D: nat): (d: Tensor<Vec>)
    requires x.Valid() && x.shape == [B, S] && D > 0
    ensures d.Valid() && d.shape == [1, B * D, S]
    ensures forall row: nat, s: nat | row < B * D && s < S ::
              B > 0 && At3(d, 0, row, s) == At2(x, Original(row, B), s)
  {
    Size3(1, B, S);
    Size2(B, S);
    var one := View(x, [1, B, S]);
    assert forall b: nat, s: nat | b < B && s < S :: At3(one, 0, b, s) == At2(x, b, s) by {
      forall b: nat, s: nat | b < B && s < S ensures At3(one, 0, b, s) == At2(x, b, s) {
        DropFirst3(B, S, b, s);
      }
    }
    if D > 1 then RepeatRows3(one, D) else one
  }

  /** `all_to_all_dispatch` of the routing: [B, S, K] to [1, B * D, S, K]. */
  function DispatchEach<T>(ids: Tensor<T>, B: nat, S: nat, K: nat, D: nat): (metadata: Tensor<T>)
    requires ids.Valid() && ids.shape == [B, S, K] && D > 0
    ensures metadata.Valid() && metadata.shape == [1, B * D, S, K]
    ensures forall row: nat, s: nat, k: nat | row < B * D && s < S && k < K ::
              B > 0 && At4(metadata, 0, row, s, k) == At3(ids, Original(row, B), s, k)
  {
    Size4(1, B, S, K);
    Size3(B, S, K);
    var one := View(ids, [1, B, S, K]);
    assert forall b: nat, s: nat, k: nat | b < B && s < S && k < K :: At4(one, 0, b, s, k) == At3(ids, b, s, k) by {
      forall b: nat, s: nat, k: nat | b < B && s < S && k < K ensures At4(one, 0, b, s, k) == At3(ids, b, s, k) {
        DropFirst4(B, S, K, b, s, k);
      }
    }
    if D > 1 then RepeatRows4(one, D) else one
  }

  lemma RowsAt2(x: Tensor<Vec>, width: nat, b: nat, s: nat)
    requires Rows(x, width) && In2(x.shape, b, s)
    ensures |At2(x, b, s)| == width
  {
    assert At2(x, b, s) == x.data[Flat(x.shape, [b, s])];
  }

  lemma ReplicatedIds(ids: Tensor<int>, B: nat, S: nat, K: nat, D: nat, experts: nat)
    requires ids.Valid() && ids.shape == [B, S, K] && D > 0 && ExpertIds(ids, experts)
    ensures ExpertIds(DispatchEach(ids, B, S, K, D), experts)
  {
    var metadata := DispatchEach(ids, B, S, K, D);
    forall i: nat, row: nat, s: nat, k: nat | In4(metadata.shape, i, row, s, k)
      ensures 0 <= At4(metadata, i, row, s, k) < experts
    {
      assert At4(metadata, 0, row, s, k) == At3(ids, Original(row, B), s, k);
      assert At3(ids, Original(row, B), s, k) == ids.data[Flat(ids.shape, [Original(row, B), s, k])];
    }
    Each4(metadata, (e: int) => 0 <= e < experts);
  }

  lemma ReplicatedTokens(x: Tensor<Vec>, B: nat, S: nat, D: nat, width: nat)
    requires x.shape == [B, S] && D > 0 && Rows(x, width)
    ensures Rows(DispatchTokens(x, B, S, D), width)
  {
    var d := DispatchTokens(x, B, S, D);
    forall i: nat, row: nat, s: nat | In3(d.shape, i, row, s) ensures |At3(d, i, row, s)| == width {
      assert At3(d, 0, row, s) == At2(x, Original(row, B), s);
      RowsAt2(x, width, Original(row, B), s);
    }
    Each3(d, (v: Vec) => |v| == width);
  }

  /** The sizes of one forward pass: B x S tokens, K choices each, D dispatch devices, tiles of m tokens. */
  datatype Pass = Pass(B: nat, S: nat, K: nat, D: nat, m: nat) {
    /** The assertion of the forward pass: one of the two dimensions can be cut into tiles. */
    predicate Tileable() {
      m > 0 && (Splits(S, m) || Splits(B * D, m))
    }

    ghost predicate Accepts(bank: Bank, x: Tensor<Vec>, ids: Tensor<int>) {
      && D > 0 && Tileable()
      && bank.Valid() && Batch(x, ids, B, S, K)
      && Rows(x, bank.hidden) && ExpertIds(ids, |bank.gateUp|)
    }

    /** One router logit for every token and expert. */
    predicate Logits(bank: Bank, logits: Tensor<real>) {
      logits.Valid() && logits.shape == [B, S, |bank.gateUp|]
    }

    function Cut(): (t: Tiling)
      requires Tileable()
      ensures t.Covers(B * D, S) && t.m == m
    {
      Choose(B * D, S, m)
    }

    function Ids(ids: Tensor<int>): (metadata: Tensor<int>)
      requires ids.Valid() && ids.shape == [B, S, K] && D > 0
      ensures metadata.Valid() && metadata.shape == [1, B * D, S, K]
    {
      DispatchEach(ids, B, S, K, D)
    }

    /** Whether the fused path leaves the tile of token (b, s) live for expert e. */
    ghost predicate Live(ids: Tensor<int>, b: nat, s: nat, e: int)
      requires D > 0 && Tileable() && ids.Valid() && ids.shape == [B, S, K]
    {
      FusedLive(Ids(ids), Cut(), B * D, S, TileRow(Cut(), b), TileCol(Cut(), s), e)
    }

    /** What the k-th choice of token (b, s) comes to on a path. */
    ghost function Outcome(bank: Bank, x: Tensor<Vec>, ids: Tensor<int>, path: Path, k: nat, b: nat, s: nat): Vec
      requires Accepts(bank, x, ids) && k < K && b < B && s < S
    {
      RowsAt2(x, bank.hidden, b, s);
      var e := At3(ids, b, s, k);
      assert e == ids.data[Flat(ids.shape, [b, s, k])];
      if path.Fused? && !Live(ids, b, s, e) then bank.downBias[e] else Expert(bank, e, At2(x, b, s))
    }
  }

  lemma RowLessThanProduct(b: nat, B: nat, D: nat)
    requires b < B && D > 0
    ensures b < B * D
  {
    assert B * 1 <= B * D;
  }

  /** A token's own choice makes its tile wanted. */
  lemma TileWanted(p: Pass, bank: Bank, x: Tensor<Vec>, ids: Tensor<int>, k: nat, b: nat, s: nat)
    requires p.Accepts(bank, x, ids) && k < p.K && b < p.B && s < p.S
    ensures TileRow(p.Cut(), b) < p.Cut().a && TileCol(p.Cut(), s) < p.Cut().b
    ensures TileWants(p.Ids(ids), p.Cut(), p.B * p.D, p.S, TileRow(p.Cut(), b), TileCol(p.Cut(), s), At3(ids, b, s, k))
  {
    RowLessThanProduct(b, p.B, p.D);
    var j := TileOfToken(p.Cut(), p.B * p.D, p.S, b, s);
    assert At4(p.Ids(ids), 0, b, s, k) == At3(ids, b, s, k);
  }

  /** What `mask` says about tile (i, j) and expert e on a path. */
  ghost predicate MaskOf(p: Pass, bank: Bank, ids: Tensor<int>, path: Path, mask: Tensor<real>)
    requires p.D > 0 && p.Tileable() && ids.Valid() && ids.shape == [p.B, p.S, p.K]
  {
    var t := p.Cut();
    && mask.Valid() && mask.shape == [t.a, t.b, 1, |bank.gateUp|]
    && forall i: nat, j: nat, e: nat | i < t.a && j < t.b && e < |bank.gateUp| ::
         At4(mask, i, j, 0, e) ==
         match path
         case Dense => 1.0
         case Fused => if FusedLive(p.Ids(ids), t, p.B * p.D, p.S, i, j, e) then 1.0 else 0.0
         case Manual => if TileWants(p.Ids(ids), t, p.B * p.D, p.S, i, j, e) then 1.0 else 0.0
  }

  /** The tiles' outputs on a path, under its mask. */
  ghost predicate OutputsUnder(p: Pass, bank: Bank, tiles: Tensor<Vec>, mask: Tensor<real>, y: Tensor<Vec>)
    requires p.Tileable() && bank.Valid()
  {
    var t := p.Cut();
    && Rows(tiles, bank.hidden) && tiles.shape == [t.a, t.b, t.m]
    && mask.Valid() && mask.shape == [t.a, t.b, 1, |bank.gateUp|]
    && y.Valid() && y.shape == [t.a, t.b, t.m, |bank.gateUp|]
    && forall i: nat, j: nat, k: nat, e: nat | i < t.a && j < t.b && k < t.m && e < |bank.gateUp| ::
         At4(y, i, j, k, e) == Masked(bank, e, Row3(tiles, bank.hidden, i, j, k), At4(mask, i, j, 0, e))
  }

  /** Stored and fetched back, the outputs under a path's mask are that path's outcomes. */
  lemma FetchedIsOutcome(p: Pass, bank: Bank, x: Tensor<Vec>, ids: Tensor<int>, path: Path, mask: Tensor<real>,
                         y: Tensor<Vec>, k: nat, b: nat, s: nat)
    requires p.Accepts(bank, x, ids) && MaskOf(p, bank, ids, path, mask)
    requires OutputsUnder(p, bank, Load(p.Cut(), DispatchTokens(x, p.B, p.S, p.D), p.B * p.D, p.S), mask, y)
    requires k < p.K && b < p.B && s < p.S
    ensures 0 <= At3(ids, b, s, k) < |bank.gateUp| && b < p.B * p.D
    ensures AtToken(Store(p.Cut(), y, p.B * p.D, p.S, |bank.gateUp|), p.Cut().layout.Decode?, At3(ids, b, s, k), b, s)
            == p.Outcome(bank, x, ids, path, k, b, s)
  {
    hide Load, Store, TileRow, TileCol, Choose;
    var t, rows, E := p.Cut(), p.B * p.D, |bank.gateUp|;
    RowLessThanProduct(b, p.B, p.D);
    var e := At3(ids, b, s, k);
    assert e == ids.data[Flat(ids.shape, [b, s, k])];
    var i, j := TileRow(t, b), TileCol(t, s);
    var token := TileOfToken(t, rows, p.S, b, s);
    LoadAt(t, DispatchTokens(x, p.B, p.S, p.D), rows, p.S, i, j, token);
    StoreAt(t, y, rows, p.S, E, i, j, token, e);
    TileWanted(p, bank, x, ids, k, b, s);
  }

  /** The experts of one path over all tiles, with the mask that path works under. */
  method TileOutputs(p: Pass, bank: Bank, x: Tensor<Vec>, logits: Tensor<real>, ids: Tensor<int>, path: Path,
                     tiles: Tensor<Vec>)
    returns (y: Tensor<Vec>, ghost mask: Tensor<real>)
    requires p.Accepts(bank, x, ids) && p.Logits(bank, logits)
    requires tiles.shape == [p.Cut().a, p.Cut().b, p.Cut().m] && Rows(tiles, bank.hidden)
    ensures MaskOf(p, bank, ids, path, mask) && OutputsUnder(p, bank, tiles, mask, y)
  {
    var rows, E, t, metadata := p.B * p.D, |bank.gateUp|, p.Cut(), p.Ids(ids);
    match path {
      case Dense =>
        mask := Build4(t.a, t.b, 1, E, (i: nat, j: nat, o: nat, e: nat) => 1.0);
        y := DenseExperts(bank, tiles);
      case Fused =>
        ReplicatedIds(ids, p.B, p.S, p.K, p.D, E);
        var topk := DispatchEach(logits, p.B, p.S, E, p.D);
        var live := FusedMask(t, topk, metadata, rows, p.S, E);
        y := SparseExperts(bank, tiles, live);
        mask := live;
      case Manual =>
        var live := ManualMask(t, metadata, rows, p.S, E);
        y := SparseExperts(bank, tiles, live);
        mask := live;
    }
  }

  lemma ProductAtLeast(B: nat, D: nat)
    requires D > 0
    ensures B <= B * D
  {
    assert B * 1 <= B * D;
  }

  /** The combine of a pass: its sizes. */
  function Combining(p: Pass, bank: Bank): Exchange
    requires p.Tileable()
  {
    Exchange(p.Cut().layout.Decode?, bank.hidden, |bank.gateUp|, p.B * p.D, p.S, p.K, p.B)
  }

  /** `combined` is what the combine fetches from the stored outputs y. */
  ghost predicate Combines(p: Pass, bank: Bank, ids: Tensor<int>, y: Tensor<Vec>, combined: Tensor<Vec>)
    requires p.D > 0 && p.Tileable() && ids.Valid() && ids.shape == [p.B, p.S, p.K]
    requires y.Valid() && y.shape == [p.Cut().a, p.Cut().b, p.Cut().m, |bank.gateUp|]
  {
    var exchange, down := Combining(p, bank), Store(p.Cut(), y, p.B * p.D, p.S, |bank.gateUp|);
    && combined.Valid() && combined.shape == TokenShape(p.Cut().layout.Decode?, p.K, p.B, p.S)
    && exchange.Fits(down, p.Ids(ids)) && exchange.CombinedUpTo(combined, down, p.Ids(ids), p.B, 0, 0)
  }

  /** What the combine fetched for a choice is that path's outcome. */
  lemma CombinedIsOutcome(p: Pass, bank: Bank, x: Tensor<Vec>, ids: Tensor<int>, path: Path, mask: Tensor<real>,
                          y: Tensor<Vec>, combined: Tensor<Vec>, k: nat, b: nat, s: nat)
    requires p.Accepts(bank, x, ids) && MaskOf(p, bank, ids, path, mask)
    requires OutputsUnder(p, bank, Load(p.Cut(), DispatchTokens(x, p.B, p.S, p.D), p.B * p.D, p.S), mask, y)
    requires k < p.K && b < p.B && s < p.S && Combines(p, bank, ids, y, combined)
    ensures AtToken(combined, p.Cut().layout.Decode?, k, b, s) == p.Outcome(bank, x, ids, path, k, b, s)
  {
    hide MaskOf, OutputsUnder, Load, Store, FusedLive;
    FetchedIsOutcome(p, bank, x, ids, path, mask, y, k, b, s);
    assert At4(p.Ids(ids), 0, b, s, k) == At3(ids, b, s, k);
  }

  /** Store the tiles' outputs by expert, and fetch every token's choices back. */
  method CombineOutputs(p: Pass, bank: Bank, ids: Tensor<int>, y: Tensor<Vec>) returns (combined: Tensor<Vec>)
    requires p.D > 0 && p.Tileable() && ids.Valid() && ids.shape == [p.B, p.S, p.K]
    requires y.Valid() && y.shape == [p.Cut().a, p.Cut().b, p.Cut().m, |bank.gateUp|]
    ensures Combines(p, bank, ids, y, combined)
  {
    hide Store, TokenShape;
    ProductAtLeast(p.B, p.D);
    combined := Combine(Combining(p, bank), Store(p.Cut(), y, p.B * p.D, p.S, |bank.gateUp|), p.Ids(ids));
  }

  /** The forward pass up to the combine, on one of its three paths. */
  method ExpertOutputs(p: Pass, bank: Bank, x: Tensor<Vec>, logits: Tensor<real>, ids: Tensor<int>, path: Path)
    returns (decode: bool, combined: Tensor<Vec>)
    requires p.Accepts(bank, x, ids) && p.Logits(bank, logits)
    ensures decode == p.Cut().layout.Decode?
    ensures combined.Valid() && combined.shape == TokenShape(decode, p.K, p.B, p.S)
    ensures forall k: nat, b: nat, s: nat | k < p.K && b < p.B && s < p.S ::
              AtToken(combined, decode, k, b, s) == p.Outcome(bank, x, ids, path, k, b, s)
  {
    hide MaskOf, Load, Store;
    var rows, t := p.B * p.D, p.Cut();
    var dispatched := DispatchTokens(x, p.B, p.S, p.D);
    ReplicatedTokens(x, p.B, p.S, p.D, bank.hidden);
    LoadRows(t, dispatched, rows, p.S, bank.hidden);
    var y, mask := TileOutputs(p, bank, x, logits, ids, path, Load(t, dispatched, rows, p.S));
    decode := t.layout.Decode?;
    combined := CombineOutputs(p, bank, ids, y);
    forall k: nat, b: nat, s: nat | k < p.K && b < p.B && s < p.S
      ensures AtToken(combined, decode, k, b, s) == p.Outcome(bank, x, ids, path, k, b, s)
    {
      CombinedIsOutcome(p, bank, x, ids, path, mask, y, combined, k, b, s);
    }
  }
}
