/** What products, experts and mixtures are, said of their inputs and outputs alone. */
module ExpertLaws {
  import opened Experts
  import opened MoeRouting

  // ---- matrix products ----

  /** A row that is c at place k and 0 elsewhere. */
  predicate OnlyAt(x: Vec, k: nat, c: real) {
    k < |x| && forall i | 0 <= i < |x| :: x[i] == if i == k then c else 0.0
  }

  lemma {:induction false} DotOfNothing(x: Vec, w: Matrix, j: nat)
    requires |x| == |w| && (forall k :: 0 <= k < |w| ==> j < |w[k]|) && forall i | 0 <= i < |x| :: x[i] == 0.0
    ensures Dot(x, w, j) == 0.0
  {
    if x != [] {
      DotOfNothing(x[..|x| - 1], w[..|w| - 1], j);
    }
  }

  lemma {:induction false} DotOfOne(x: Vec, w: Matrix, j: nat, k: nat, c: real)
    requires |x| == |w| && (forall i :: 0 <= i < |w| ==> j < |w[i]|) && OnlyAt(x, k, c)
    ensures Dot(x, w, j) == w[k][j] * c
  {
    if k == |x| - 1 {
      DotOfNothing(x[..|x| - 1], w[..|w| - 1], j);
    } else {
      DotOfOne(x[..|x| - 1], w[..|w| - 1], j, k, c);
    }
  }

  lemma {:induction false} DotAdds(x: Vec, y: Vec, w: Matrix, j: nat)
    requires |x| == |y| == |w| && forall k :: 0 <= k < |w| ==> j < |w[k]|
    ensures Dot(Add(x, y), w, j) == Dot(x, w, j) + Dot(y, w, j)
  {
    if x != [] {
      var n := |x| - 1;
      assert Add(x, y)[..n] == Add(x[..n], y[..n]);
      DotAdds(x[..n], y[..n], w[..n], j);
      assert (x[n] + y[n]) * w[n][j] == x[n] * w[n][j] + y[n] * w[n][j];
    }
  }

  /** A product picks and scales the row of its one input, wherever that is. */
  lemma ProductOfOne(x: Vec, w: Matrix, cols: nat, k: nat, c: real)
    requires IsMatrix(w, |x|, cols) && OnlyAt(x, k, c)
    ensures RowMul(x, w, cols) == Scale(w[k], c)
  {
    forall j | 0 <= j < cols ensures RowMul(x, w, cols)[j] == w[k][j] * c {
      DotOfOne(x, w, j, k, c);
    }
  }

  /** The product of a sum is the sum of the products: with the above, that is every product there is. */
  lemma ProductAdds(x: Vec, y: Vec, w: Matrix, cols: nat)
    requires |x| == |y| && IsMatrix(w, |x|, cols)
    ensures RowMul(Add(x, y), w, cols) == Add(RowMul(x, w, cols), RowMul(y, w, cols))
  {
    forall j | 0 <= j < cols ensures RowMul(Add(x, y), w, cols)[j] == RowMul(x, w, cols)[j] + RowMul(y, w, cols)[j] {
      DotAdds(x, y, w, j);
    }
  }

  // ---- one expert ----

  /** Unit i of the activation, from the gate and up entries 2i and 2i + 1. */
  lemma UnitIs(bank: Bank, row: Vec, i: nat)
    requires |row| == 2 * bank.inter && i < bank.inter && bank.activation.DeepSeek?
    ensures Activate(bank, row)[i] == row[2 * i] * bank.sigmoid(row[2 * i]) * row[2 * i + 1]
  {}

  lemma GluIs(bank: Bank, gate: real, up: real)
    requires bank.activation.GptOss?
    ensures Glu(bank.sigmoid, bank.activation.alpha, gate, up)
            == (up + 1.0) * (gate * bank.sigmoid(gate * bank.activation.alpha))
  {}

  lemma GatedIs(bank: Bank, g: real, u: real, gate: real, up: real)
    requires bank.activation.GptOss?
    requires gate == ClampMax(g, bank.activation.limit)
    requires up == Clamp(u, -bank.activation.limit, bank.activation.limit)
    ensures Gated(bank.activation, bank.sigmoid, g, u) == Glu(bank.sigmoid, bank.activation.alpha, gate, up)
  {}

  /** The same with clamping: gate is the gate entry, at most limit; up the up entry, between -limit and limit. */
  lemma ClampedUnitIs(bank: Bank, row: Vec, i: nat, limit: real, gate: real, up: real)
    requires |row| == 2 * bank.inter && i < bank.inter && bank.activation.GptOss?
    requires limit == bank.activation.limit >= 0.0
    requires gate == if row[2 * i] <= limit then row[2 * i] else limit
    requires up == if row[2 * i + 1] > limit then limit else if row[2 * i + 1] < -limit then -limit else row[2 * i + 1]
    ensures Activate(bank, row)[i] == (up + 1.0) * (gate * bank.sigmoid(gate * bank.activation.alpha))
  {
    hide Glu, Gated;
    GatedIs(bank, row[2 * i], row[2 * i + 1], gate, up);
    GluIs(bank, gate, up);
  }

  /** A token with a single entry c, at place k: its expert activates c times row k of the gate and up weights, plus
      their bias. */
  lemma ExpertOfOne(bank: Bank, e: nat, x: Vec, k: nat, c: real)
    requires bank.Valid() && e < |bank.gateUp| && |x| == bank.hidden && OnlyAt(x, k, c)
    ensures var units := Activate(bank, Add(Scale(bank.gateUp[e][k], c), bank.gateUpBias[e]));
            Expert(bank, e, x) == Add(RowMul(units, bank.down[e], bank.hidden), bank.downBias[e])
  {
    ProductOfOne(x, bank.gateUp[e], 2 * bank.inter, k, c);
  }

  /** A token that is a sum: what is activated is the sum of what its parts would bring, with one bias. */
  lemma ExpertOfSum(bank: Bank, e: nat, x: Vec, y: Vec)
    requires bank.Valid() && e < |bank.gateUp| && |x| == |y| == bank.hidden
    ensures var n := 2 * bank.inter;
            var units := Activate(bank, Add(Add(RowMul(x, bank.gateUp[e], n), RowMul(y, bank.gateUp[e], n)),
                                            bank.gateUpBias[e]));
            Expert(bank, e, Add(x, y)) == Add(RowMul(units, bank.down[e], bank.hidden), bank.downBias[e])
  {
    ProductAdds(x, y, bank.gateUp[e], 2 * bank.inter);
  }

  /** When only unit i comes out different from zero, as a, the expert answers a times row i of the down weights, plus
      their bias. */
  lemma ExpertOfUnit(bank: Bank, e: nat, x: Vec, i: nat, a: real)
    requires bank.Valid() && e < |bank.gateUp| && |x| == bank.hidden
    requires OnlyAt(Activate(bank, Add(RowMul(x, bank.gateUp[e], 2 * bank.inter), bank.gateUpBias[e])), i, a)
    ensures Expert(bank, e, x) == Add(Scale(bank.down[e][i], a), bank.downBias[e])
  {
    ProductOfOne(Activate(bank, Add(RowMul(x, bank.gateUp[e], 2 * bank.inter), bank.gateUpBias[e])), bank.down[e],
                 bank.hidden, i, a);
  }

  // ---- mixtures ----

  lemma {:induction false} SumOfNoRow(width: nat, rows: seq<Vec>, n: nat)
    requires Wide(rows, width) && n <= |rows| && forall i | 0 <= i < n :: rows[i] == Zeros(width)
    ensures SumRows(width, rows, n) == Zeros(width)
  {
    if n > 0 {
      SumOfNoRow(width, rows, n - 1);
      assert SumRows(width, rows, n) == Zeros(width);
    }
  }

  lemma {:induction false} SumOfOneRow(width: nat, rows: seq<Vec>, n: nat, e: nat)
    requires Wide(rows, width) && e < n <= |rows|
    requires forall i | 0 <= i < n && i != e :: rows[i] == Zeros(width)
    ensures SumRows(width, rows, n) == rows[e]
  {
    if e == n - 1 {
      SumOfNoRow(width, rows, n - 1);
      assert SumRows(width, rows, n) == rows[e];
    } else {
      SumOfOneRow(width, rows, n - 1, e);
      assert SumRows(width, rows, n) == rows[e];
    }
  }

  /** With a single score c, on expert e, the mixture is c times that expert. */
  lemma MixtureOfOne(bank: Bank, x: Vec, scores: Vec, e: nat, c: real)
    requires Token(bank, x, scores) && OnlyAt(scores, e, c)
    ensures Mixture(bank, x, scores) == Scale(Expert(bank, e, x), c)
  {
    hide Expert;
    var terms := Terms(bank, x, scores);
    forall i | 0 <= i < |terms| && i != e ensures terms[i] == Zeros(bank.hidden) {
      ScaleByMask(Expert(bank, i, x));
    }
    SumOfOneRow(bank.hidden, terms, |scores|, e);
  }

  lemma {:induction false} SumRowsAdds(width: nat, a: seq<Vec>, b: seq<Vec>, c: seq<Vec>, n: nat)
    requires Wide(a, width) && Wide(b, width) && Wide(c, width) && n <= |a| == |b| == |c|
    requires forall i | 0 <= i < n :: c[i] == Add(a[i], b[i])
    ensures SumRows(width, c, n) == Add(SumRows(width, a, n), SumRows(width, b, n))
  {
    if n > 0 {
      SumRowsAdds(width, a, b, c, n - 1);
    }
    assert SumRows(width, c, n) == Add(SumRows(width, a, n), SumRows(width, b, n));
  }

  lemma ScaleAdds(v: Vec, a: real, b: real)
    ensures Scale(v, a + b) == Add(Scale(v, a), Scale(v, b))
  {
    forall i | 0 <= i < |v| ensures Scale(v, a + b)[i] == Scale(v, a)[i] + Scale(v, b)[i] {
      assert v[i] * (a + b) == v[i] * a + v[i] * b;
    }
  }

  /** Scores that add up mix what their parts mix. */
  lemma MixtureAdds(bank: Bank, x: Vec, a: Vec, b: Vec)
    requires Token(bank, x, a) && Token(bank, x, b)
    ensures Mixture(bank, x, Add(a, b)) == Add(Mixture(bank, x, a), Mixture(bank, x, b))
  {
    hide Expert;
    var both := Terms(bank, x, Add(a, b));
    forall e | 0 <= e < |both| ensures both[e] == Add(Terms(bank, x, a)[e], Terms(bank, x, b)[e]) {
      ScaleAdds(Expert(bank, e, x), a[e], b[e]);
    }
    SumRowsAdds(bank.hidden, Terms(bank, x, a), Terms(bank, x, b), both, |a|);
  }
}
