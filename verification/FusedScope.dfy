/** When the fused mask may stand in for the true one: exactly then do the three paths compute the same. */
module FusedScope {
  import opened Finite
  import opened Tensors
  import opened Experts
  import opened MoeOps
  import opened Tiles
  import opened TileMasks
  import opened A2aForward

  /** A routing tensor as top-k produces it: expert numbers, distinct for each token. */
  ghost predicate ValidRouting(p: Pass, ids: Tensor<int>, experts: nat) {
    && ids.Valid() && ids.shape == [p.B, p.S, p.K] && ExpertIds(ids, experts)
    && forall b: nat, s: nat, k: nat, k': nat | b < p.B && s < p.S && k < k' < p.K ::
         At3(ids, b, s, k) != At3(ids, b, s, k')
  }

  /** No selected expert is masked out. */
  ghost predicate AllLive(p: Pass, ids: Tensor<int>)
    requires p.D > 0 && p.Tileable() && ids.Valid() && ids.shape == [p.B, p.S, p.K]
  {
    forall b: nat, s: nat, k: nat | b < p.B && s < p.S && k < p.K :: p.Live(ids, b, s, At3(ids, b, s, k))
  }

  /** The chunk of copy c of token (b, s) has the number of the token's own tile. */
  predicate Aligned(p: Pass, b: nat, s: nat, c: nat)
    requires p.Tileable()
  {
    ChunkOf(c * p.B + b, s, p.S, p.m) == TileNumber(p.Cut(), TileRow(p.Cut(), b), TileCol(p.Cut(), s))
  }

  predicate SomeAligned(p: Pass, b: nat, s: nat)
    requires p.Tileable()
  {
    exists c :: 0 <= c < p.D && Aligned(p, b, s, c)
  }

  /** Every token has a copy, on some dispatch device, whose chunk is numbered as the token's tile. */
  predicate CopiesAligned(p: Pass)
    requires p.Tileable()
  {
    forall b, s | 0 <= b < p.B && 0 <= s < p.S :: SomeAligned(p, b, s)
  }

  /** A replicated row is one copy of one token. */
  lemma RowIsCopy(p: Pass, row: nat) returns (c: nat, b: nat)
    requires row < p.B * p.D
    ensures c < p.D && b < p.B && row == c * p.B + b && Original(row, p.B) == b
  {
    c, b := Digits(row, p.D, p.B);
    QuotientRemainder(c, b, p.B);
  }

  lemma CopyOf(p: Pass, b: nat, c: nat)
    requires b < p.B && c < p.D
    ensures c * p.B + b < p.B * p.D && Original(c * p.B + b, p.B) == b
  {
    DigitBound(c, p.D, b, p.B);
    QuotientRemainder(c, b, p.B);
  }

  lemma AlignedIsLive(p: Pass, ids: Tensor<int>, b: nat, s: nat, k: nat, c: nat)
    requires p.D > 0 && p.Tileable() && ids.Valid() && ids.shape == [p.B, p.S, p.K]
    requires b < p.B && s < p.S && k < p.K && c < p.D && Aligned(p, b, s, c)
    ensures p.Live(ids, b, s, At3(ids, b, s, k))
  {
    var row := c * p.B + b;
    CopyOf(p, b, c);
    assert At4(p.Ids(ids), 0, row, s, k) == At3(ids, b, s, k);
    assert Selected(p.Ids(ids), row, s, At3(ids, b, s, k));
  }

  /** All tokens choose experts 0..K-1, but token (b, s) chooses 1..K. */
  function Contrary(p: Pass, b: nat, s: nat): (ids: Tensor<int>)
    ensures ids.Valid() && ids.shape == [p.B, p.S, p.K]
    ensures forall b': nat, s': nat, k: nat | b' < p.B && s' < p.S && k < p.K ::
              At3(ids, b', s', k) == if b' == b && s' == s then k + 1 else k
  {
    Build3(p.B, p.S, p.K, (b': nat, s': nat, k: nat) => if b' == b && s' == s then k + 1 else k)
  }

  lemma ContraryIsValid(p: Pass, b: nat, s: nat, experts: nat)
    requires p.K < experts
    ensures ValidRouting(p, Contrary(p, b, s), experts)
  {
    Each3(Contrary(p, b, s), (e: int) => 0 <= e < experts);
  }

  /** Under the contrary routing, only the copies of token (b, s) selected expert K. */
  lemma OnlyCopiesSelect(p: Pass, b: nat, s: nat, row: nat, q: nat) returns (c: nat)
    requires p.D > 0 && b < p.B && s < p.S && row < p.B * p.D && q < p.S
    requires Selected(p.Ids(Contrary(p, b, s)), row, q, p.K)
    ensures c < p.D && row == c * p.B + b && q == s
  {
    var metadata := p.Ids(Contrary(p, b, s));
    var k: nat :| k < p.K && At4(metadata, 0, row, q, k) == p.K;
    var b';
    c, b' := RowIsCopy(p, row);
    assert At4(metadata, 0, row, q, k) == At3(Contrary(p, b, s), b', q, k);
  }

  /** Under the contrary routing, expert K of token (b, s) is live only through an aligned copy. */
  lemma ContraryLive(p: Pass, b: nat, s: nat)
    requires p.D > 0 && p.Tileable() && b < p.B && s < p.S
    requires p.Live(Contrary(p, b, s), b, s, p.K)
    ensures SomeAligned(p, b, s)
  {
    hide ChunkOf, TileNumber, TileRow, TileCol, Selected, Choose, Flat, Size;
    var number := TileNumber(p.Cut(), TileRow(p.Cut(), b), TileCol(p.Cut(), s));
    var row: nat, q: nat :| row < p.B * p.D && q < p.S
      && ChunkOf(row, q, p.S, p.m) == number && Selected(p.Ids(Contrary(p, b, s)), row, q, p.K);
    var c := OnlyCopiesSelect(p, b, s, row, q);
    assert Aligned(p, b, s, c);
  }

  /** Fewer choices than experts: the fused path masks no selected expert, whatever the router does,
      if and only if every token has an aligned copy.  The condition only mentions the sizes. */
  lemma FusedExact(p: Pass, experts: nat)
    requires p.D > 0 && p.Tileable() && 0 < p.K < experts
    ensures (forall ids: Tensor<int> | ValidRouting(p, ids, experts) :: AllLive(p, ids)) <==> CopiesAligned(p)
  {
    if CopiesAligned(p) {
      forall ids: Tensor<int> | ValidRouting(p, ids, experts) ensures AllLive(p, ids) {
        forall b: nat, s: nat, k: nat | b < p.B && s < p.S && k < p.K
          ensures p.Live(ids, b, s, At3(ids, b, s, k))
        {
          assert SomeAligned(p, b, s);
          var c: nat :| c < p.D && Aligned(p, b, s, c);
          AlignedIsLive(p, ids, b, s, k, c);
        }
      }
    } else {
      var b: nat, s: nat :| b < p.B && s < p.S && !SomeAligned(p, b, s);
      var ids := Contrary(p, b, s);
      ContraryIsValid(p, b, s, experts);
      if AllLive(p, ids) {
        assert p.Live(ids, b, s, At3(ids, b, s, p.K - 1));
        ContraryLive(p, b, s);
      }
    }
  }

  // ---- the same condition, on what the paths compute ----

  ghost predicate ComputesAt(p: Pass, bank: Bank, x: Tensor<Vec>, ids: Tensor<int>, path: Path, k: nat, b: nat, s: nat)
    requires p.Accepts(bank, x, ids) && k < p.K && b < p.B && s < p.S
  {
    && 0 <= At3(ids, b, s, k) < |bank.gateUp| && |At2(x, b, s)| == bank.hidden
    && p.Outcome(bank, x, ids, path, k, b, s) == Expert(bank, At3(ids, b, s, k), At2(x, b, s))
  }

  /** Every choice of every token comes out of the path as its expert applied to the token. */
  ghost predicate Computes(p: Pass, bank: Bank, x: Tensor<Vec>, ids: Tensor<int>, path: Path)
    requires p.Accepts(bank, x, ids)
  {
    forall k: nat, b: nat, s: nat | k < p.K && b < p.B && s < p.S :: ComputesAt(p, bank, x, ids, path, k, b, s)
  }

  /** One hidden unit and constant ones in front of the down map: every expert says 1, its bias alone says 0. */
  function UnitBank(experts: nat): (bank: Bank)
    ensures bank.Valid() && |bank.gateUp| == experts && bank.hidden == 1 && bank.inter == 1
  {
    Bank(1, 1, seq(experts, _ => [[0.0, 0.0]]), seq(experts, _ => [1.0, 1.0]), seq(experts, _ => [[1.0]]),
         seq(experts, _ => [0.0]), DeepSeek, _ => 1.0)
  }

  lemma UnitExpert(experts: nat, e: nat, x: Vec)
    requires e < experts && |x| == 1
    ensures Expert(UnitBank(experts), e, x) == [1.0] && UnitBank(experts).downBias[e] == [0.0]
  {
    var bank := UnitBank(experts);
    assert Dot(x, bank.gateUp[e], 0) == Dot(x[..0], bank.gateUp[e][..0], 0) + x[0] * 0.0;
    assert Dot(x, bank.gateUp[e], 1) == Dot(x[..0], bank.gateUp[e][..0], 1) + x[0] * 0.0;
    var row := Add(RowMul(x, bank.gateUp[e], 2), bank.gateUpBias[e]);
    assert row == [1.0, 1.0];
    var act := Activate(bank, row);
    assert act == [1.0];
    assert Dot(act, bank.down[e], 0) == Dot(act[..0], bank.down[e][..0], 0) + act[0] * 1.0;
  }

  /** Without an aligned copy of some token, this input comes out of the fused path wrong. */
  lemma FusedGoesWrong(p: Pass, experts: nat) returns (x: Tensor<Vec>, ids: Tensor<int>)
    requires p.D > 0 && p.Tileable() && 0 < p.K < experts && !CopiesAligned(p)
    ensures ValidRouting(p, ids, experts) && p.Accepts(UnitBank(experts), x, ids)
    ensures !Computes(p, UnitBank(experts), x, ids, Fused)
  {
    var b: nat, s: nat :| b < p.B && s < p.S && !SomeAligned(p, b, s);
    ids := Contrary(p, b, s);
    ContraryIsValid(p, b, s, experts);
    x := Tensor([p.B, p.S], seq(Size([p.B, p.S]), _ => [0.0]));
    var bank, k := UnitBank(experts), p.K - 1;
    if p.Live(ids, b, s, p.K) {
      ContraryLive(p, b, s);
    }
    assert At3(ids, b, s, k) == p.K;
    RowsAt2(x, 1, b, s);
    UnitExpert(experts, p.K, At2(x, b, s));
    assert !ComputesAt(p, bank, x, ids, Fused, k, b, s);
  }

  // ---- choosing every expert ----

  lemma {:induction false} ChoicesCount(choice: seq<int>, n: nat)
    requires n <= |choice| && forall j, k | 0 <= j < k < n :: choice[j] != choice[k]
    ensures |set k: nat | k < n :: choice[k]| == n
  {
    if n > 0 {
      ChoicesCount(choice, n - 1);
      assert (set k: nat | k < n :: choice[k]) == (set k: nat | k < n - 1 :: choice[k]) + {choice[n - 1]};
    }
  }

  /** As many different numbers below n as there are choices: every one of them is chosen. */
  lemma {:induction false} AllChosen(n: nat, choice: seq<int>, e: int)
    requires |choice| == n && 0 <= e < n && forall k | 0 <= k < n :: 0 <= choice[k] < n
    requires forall j, k | 0 <= j < k < n :: choice[j] != choice[k]
    ensures e in choice
  {
    var rest := set k: nat | k < n :: choice[k];
    ChoicesCount(choice, n);
    var all := Upto(n);
    assert rest <= all;
    if e !in choice {
      SubsetSize(rest, all - {e});
    }
  }

  /** The chunk with a tile's number holds some token. */
  lemma InChunk(t: Tiling, rows: nat, seqLen: nat, i: nat, j: nat) returns (row: nat, q: nat)
    requires t.Covers(rows, seqLen) && i < t.a && j < t.b && t.m > 0
    ensures row < rows && q < seqLen && ChunkOf(row, q, seqLen, t.m) == TileNumber(t, i, j)
  {
    var n := TileNumber(t, i, j);
    DigitBound(i, t.a, j, t.b);
    DigitBound(n, t.a * t.b, 0, t.m);
    row, q := Digits(n * t.m, rows, seqLen);
    QuotientRemainder(n, 0, t.m);
  }

  /** With every expert chosen by every token, no chunk misses any. */
  lemma AllExpertsLive(p: Pass, ids: Tensor<int>, b: nat, s: nat, e: int)
    requires p.D > 0 && p.Tileable() && ValidRouting(p, ids, p.K)
    requires b < p.B && s < p.S && 0 <= e < p.K
    ensures p.Live(ids, b, s, e)
  {
    var t, rows := p.Cut(), p.B * p.D;
    RowLessThanProduct(b, p.B, p.D);
    var number := TileNumber(t, TileRow(t, b), TileCol(t, s));
    var k := TileOfToken(t, rows, p.S, b, s);
    var row, q := InChunk(t, rows, p.S, TileRow(t, b), TileCol(t, s));
    var c, o := RowIsCopy(p, row);
    var choice := seq(p.K, i requires 0 <= i < p.K => At3(ids, o, q, i));
    forall i | 0 <= i < p.K ensures 0 <= choice[i] < p.K {
      assert At3(ids, o, q, i) == ids.data[Flat(ids.shape, [o, q, i])];
    }
    AllChosen(p.K, choice, e);
    var i :| 0 <= i < p.K && choice[i] == e;
    assert At4(p.Ids(ids), 0, row, q, i) == At3(ids, o, q, i);
    assert Selected(p.Ids(ids), row, q, e);
  }

  /** The sizes under which the fused path may be taken. */
  predicate FusedFits(p: Pass, experts: nat)
    requires p.Tileable()
  {
    CopiesAligned(p) || p.K == 0 || p.K == experts
  }

  /** Every path makes the k-th choice of token (b, s) that expert applied to that token; the fused
      one under its condition. */
  lemma PathsAgree(p: Pass, bank: Bank, x: Tensor<Vec>, ids: Tensor<int>, path: Path, k: nat, b: nat, s: nat)
    requires p.Accepts(bank, x, ids) && k < p.K && b < p.B && s < p.S
    requires path.Fused? ==> FusedFits(p, |bank.gateUp|) && ValidRouting(p, ids, |bank.gateUp|)
    ensures 0 <= At3(ids, b, s, k) < |bank.gateUp| && |At2(x, b, s)| == bank.hidden
    ensures p.Outcome(bank, x, ids, path, k, b, s) == Expert(bank, At3(ids, b, s, k), At2(x, b, s))
  {
    RowsAt2(x, bank.hidden, b, s);
    assert At3(ids, b, s, k) == ids.data[Flat(ids.shape, [b, s, k])];
    if path.Fused? {
      if CopiesAligned(p) {
        assert SomeAligned(p, b, s);
        var c: nat :| c < p.D && Aligned(p, b, s, c);
        AlignedIsLive(p, ids, b, s, k, c);
      } else {
        AllExpertsLive(p, ids, b, s, At3(ids, b, s, k));
      }
    }
  }

  /** Whatever the weights, the tokens and the router's distinct choices: the fused path computes the experts
      it was asked for if and only if every token has an aligned copy, or no expert or every expert is
      chosen. */
  lemma FusedComputesExact(p: Pass, experts: nat)
    requires p.D > 0 && p.Tileable() && p.K <= experts
    ensures (forall bank: Bank, x: Tensor<Vec>, ids: Tensor<int>
               | |bank.gateUp| == experts && ValidRouting(p, ids, experts) && p.Accepts(bank, x, ids) ::
               Computes(p, bank, x, ids, Fused))
            <==> FusedFits(p, experts)
  {
    if FusedFits(p, experts) {
      forall bank: Bank, x: Tensor<Vec>, ids: Tensor<int>
        | |bank.gateUp| == experts && ValidRouting(p, ids, experts) && p.Accepts(bank, x, ids)
        ensures Computes(p, bank, x, ids, Fused)
      {
        forall k: nat, b: nat, s: nat | k < p.K && b < p.B && s < p.S
          ensures ComputesAt(p, bank, x, ids, Fused, k, b, s)
        {
          PathsAgree(p, bank, x, ids, Fused, k, b, s);
        }
      }
    } else {
      var x, ids := FusedGoesWrong(p, experts);
    }
  }

  /** Tiles along the sequence, or decoding, leave every token aligned with its own first copy. */
  lemma AlignedWhenSplit(p: Pass)
    requires p.D > 0 && p.Tileable() && (Splits(p.S, p.m) || p.S == 1)
    ensures CopiesAligned(p)
  {
    var t := p.Cut();
    forall b, s | 0 <= b < p.B && 0 <= s < p.S ensures SomeAligned(p, b, s) {
      RowLessThanProduct(b, p.B, p.D);
      var k := TileOfToken(t, p.B * p.D, p.S, b, s);
      ChunkIsTile(t, p.B * p.D, p.S, TileRow(t, b), TileCol(t, s), k);
      assert Aligned(p, b, s, 0);
    }
  }

  /** With one dispatch device, that is exactly the tiling along the sequence, or decoding. */
  lemma SingleDeviceExact(p: Pass)
    requires p.D == 1 && p.Tileable() && p.m > 1 && p.B > 0 && p.S > 0
    ensures CopiesAligned(p) <==> Splits(p.S, p.m) || p.S == 1
  {
    var t := p.Cut();
    if Splits(p.S, p.m) || p.S == 1 {
      AlignedWhenSplit(p);
    } else {
      assert ChunkOf(0, 1, p.S, p.m) == 0;
      assert TileNumber(t, TileRow(t, 0), TileCol(t, 1)) == 1;
      assert !Aligned(p, 0, 1, 0) && !SomeAligned(p, 0, 1);
    }
  }
}
