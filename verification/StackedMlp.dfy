/** A2aSparseStackedMlp: the gate and up columns are separated once, when the module is built. */
module StackedMlp {
  import opened Experts

  /** `v[::2]` and `v[1::2]`, concatenated. */
  function Deinterleave(v: Vec, inter: nat): (r: Vec)
    requires |v| == 2 * inter
    ensures |r| == 2 * inter
    ensures forall i :: 0 <= i < inter ==> r[i] == v[2 * i] && r[inter + i] == v[2 * i + 1]
  {
    seq(inter, i requires 0 <= i < inter => v[2 * i]) + seq(inter, i requires 0 <= i < inter => v[2 * i + 1])
  }

  function DeinterleaveColumns(w: Matrix, rows: nat, inter: nat): (r: Matrix)
    requires IsMatrix(w, rows, 2 * inter)
    ensures IsMatrix(r, rows, 2 * inter)
    ensures forall k :: 0 <= k < rows ==> r[k] == Deinterleave(w[k], inter)
  {
    seq(rows, k requires 0 <= k < rows => Deinterleave(w[k], inter))
  }

  /** The contiguous split: one upper clamp for both halves, a lower clamp for the up half. */
  function ActivateHalves(bank: Bank, row: Vec): (r: Vec)
    requires bank.activation.GptOss? && |row| == 2 * bank.inter
    ensures |r| == bank.inter
  {
    var limit := bank.activation.limit;
    var clamped := seq(2 * bank.inter, i requires 0 <= i < 2 * bank.inter => ClampMax(row[i], limit));
    seq(bank.inter, i requires 0 <= i < bank.inter =>
      Glu(bank.sigmoid, bank.activation.alpha, clamped[i], ClampMin(clamped[bank.inter + i], -limit)))
  }

  /** The two clamp orders agree on every input exactly when the limit is not negative. */
  lemma ClampOrders(limit: real)
    ensures (forall x: real :: ClampMin(ClampMax(x, limit), -limit) == Clamp(x, -limit, limit)) <==> limit >= 0.0
  {
    if limit < 0.0 {
      assert ClampMin(ClampMax(0.0, limit), -limit) != Clamp(0.0, -limit, limit);
    }
  }

  /** Two columns with the same entries have the same product. */
  lemma {:induction false} SameColumn(x: Vec, w: Matrix, v: Matrix, j: nat, k: nat)
    requires |x| == |w| == |v|
    requires forall r :: 0 <= r < |x| ==> j < |w[r]| && k < |v[r]| && w[r][j] == v[r][k]
    ensures Dot(x, w, j) == Dot(x, v, k)
  {
    if x != [] {
      var n := |x| - 1;
      SameColumn(x[..n], w[..n], v[..n], j, k);
    }
  }

  lemma DotDeinterleaved(x: Vec, w: Matrix, inter: nat, i: nat)
    requires IsMatrix(w, |x|, 2 * inter) && i < inter
    ensures Dot(x, DeinterleaveColumns(w, |x|, inter), i) == Dot(x, w, 2 * i)
    ensures Dot(x, DeinterleaveColumns(w, |x|, inter), inter + i) == Dot(x, w, 2 * i + 1)
  {
    hide Dot;
    SameColumn(x, DeinterleaveColumns(w, |x|, inter), w, i, 2 * i);
    SameColumn(x, DeinterleaveColumns(w, |x|, inter), w, inter + i, 2 * i + 1);
  }

  /** Entry by entry, the two halves in step. */
  lemma SameHalves(r: Vec, v: Vec, inter: nat)
    requires |r| == |v| == 2 * inter
    requires forall i :: 0 <= i < inter ==> r[i] == v[2 * i]
    requires forall i :: 0 <= i < inter ==> r[inter + i] == v[2 * i + 1]
    ensures r == Deinterleave(v, inter)
  {
    var d := Deinterleave(v, inter);
    forall j | 0 <= j < 2 * inter ensures r[j] == d[j] {
      if j >= inter {
        assert r[inter + (j - inter)] == v[2 * (j - inter) + 1];
      }
    }
  }

  /** The matmul against separated columns is the separated matmul. */
  lemma ProductDeinterleaves(x: Vec, w: Matrix, inter: nat)
    requires IsMatrix(w, |x|, 2 * inter)
    ensures RowMul(x, DeinterleaveColumns(w, |x|, inter), 2 * inter) == Deinterleave(RowMul(x, w, 2 * inter), inter)
  {
    var r, v := RowMul(x, DeinterleaveColumns(w, |x|, inter), 2 * inter), RowMul(x, w, 2 * inter);
    forall i | 0 <= i < inter ensures r[i] == v[2 * i] {
      DotDeinterleaved(x, w, inter, i);
    }
    forall i | 0 <= i < inter ensures r[inter + i] == v[2 * i + 1] {
      DotDeinterleaved(x, w, inter, i);
    }
    SameHalves(r, v, inter);
  }

  lemma ScaleDeinterleaves(a: Vec, c: real, inter: nat)
    requires |a| == 2 * inter
    ensures Scale(Deinterleave(a, inter), c) == Deinterleave(Scale(a, c), inter)
  {
    hide Scale, Deinterleave;
    SameHalves(Scale(Deinterleave(a, inter), c), Scale(a, c), inter);
  }

  lemma AddDeinterleaves(a: Vec, b: Vec, inter: nat)
    requires |a| == |b| == 2 * inter
    ensures Add(Deinterleave(a, inter), Deinterleave(b, inter)) == Deinterleave(Add(a, b), inter)
  {
    hide Add, Deinterleave;
    SameHalves(Add(Deinterleave(a, inter), Deinterleave(b, inter)), Add(a, b), inter);
  }

  lemma AffineDeinterleaves(a: Vec, c: real, b: Vec, inter: nat)
    requires |a| == |b| == 2 * inter
    ensures Add(Scale(Deinterleave(a, inter), c), Deinterleave(b, inter)) == Deinterleave(Add(Scale(a, c), b), inter)
  {
    hide Deinterleave, Add, Scale;
    ScaleDeinterleaves(a, c, inter);
    AddDeinterleaves(Scale(a, c), b, inter);
  }

  lemma HalvesActivate(bank: Bank, row: Vec)
    requires bank.activation.GptOss? && bank.activation.limit >= 0.0 && |row| == 2 * bank.inter
    ensures ActivateHalves(bank, Deinterleave(row, bank.inter)) == Activate(bank, row)
  {
    var limit, halves := bank.activation.limit, Deinterleave(row, bank.inter);
    forall i | 0 <= i < bank.inter
      ensures ActivateHalves(bank, halves)[i] == Activate(bank, row)[i]
    {
      assert halves[i] == row[2 * i] && halves[bank.inter + i] == row[2 * i + 1];
      assert ClampMin(ClampMax(row[2 * i + 1], limit), -limit) == Clamp(row[2 * i + 1], -limit, limit);
    }
  }

  /** With a limit that is not negative, both layouts activate to the same row, under any tile mask. */
  lemma SameActivation(bank: Bank, e: nat, x: Vec, mask: real)
    requires bank.Valid() && e < |bank.gateUp| && |x| == bank.hidden
    requires bank.activation.GptOss? && bank.activation.limit >= 0.0
    ensures ActivateHalves(bank, Add(Scale(RowMul(x, DeinterleaveColumns(bank.gateUp[e], bank.hidden, bank.inter),
                                                  2 * bank.inter), mask),
                                     Deinterleave(bank.gateUpBias[e], bank.inter)))
            == Activate(bank, Add(Scale(RowMul(x, bank.gateUp[e], 2 * bank.inter), mask), bank.gateUpBias[e]))
  {
    var product := RowMul(x, bank.gateUp[e], 2 * bank.inter);
    ProductDeinterleaves(x, bank.gateUp[e], bank.inter);
    AffineDeinterleaves(product, mask, bank.gateUpBias[e], bank.inter);
    HalvesActivate(bank, Add(Scale(product, mask), bank.gateUpBias[e]));
  }
}
