/** What attention is, said of queries, keys and values alone. */
module AttentionLaws {
  import opened Experts
  import opened ExpertLaws
  import opened Softmax
  import opened DecodeAttention

  // ---- scores ----

  lemma ScaleFront(q: Vec, c: real)
    requires q != []
    ensures Scale(q, c)[..|q| - 1] == Scale(q[..|q| - 1], c)
  {
    var n := |q| - 1;
    forall i | 0 <= i < n ensures Scale(q, c)[i] == Scale(q[..n], c)[i] {
      assert q[..n][i] == q[i];
    }
  }

  lemma {:induction false} InnerOfScaled(q: Vec, c: real, key: Vec)
    requires |q| == |key|
    ensures Inner(Scale(q, c), key) == c * Inner(q, key)
  {
    if q != [] {
      var n := |q| - 1;
      ScaleFront(q, c);
      InnerOfScaled(q[..n], c, key[..n]);
      assert q[n] * c * key[n] == c * (q[n] * key[n]);
      assert c * (Inner(q[..n], key[..n]) + q[n] * key[n]) == c * Inner(q[..n], key[..n]) + c * (q[n] * key[n]);
    }
  }

  lemma {:induction false} InnerOfNothing(q: Vec, key: Vec)
    requires |q| == |key| && forall i | 0 <= i < |q| :: q[i] == 0.0
    ensures Inner(q, key) == 0.0
  {
    if q != [] {
      InnerOfNothing(q[..|q| - 1], key[..|key| - 1]);
    }
  }

  lemma {:induction false} InnerOfOne(q: Vec, key: Vec, i: nat)
    requires |q| == |key| && OnlyAt(q, i, 1.0)
    ensures Inner(q, key) == key[i]
  {
    if i == |q| - 1 {
      InnerOfNothing(q[..|q| - 1], key[..|key| - 1]);
    } else {
      InnerOfOne(q[..|q| - 1], key[..|key| - 1], i);
    }
  }

  lemma {:induction false} InnerAdds(a: Vec, b: Vec, key: Vec)
    requires |a| == |b| == |key|
    ensures Inner(Add(a, b), key) == Inner(a, key) + Inner(b, key)
  {
    if a != [] {
      var n := |a| - 1;
      assert Add(a, b)[..n] == Add(a[..n], b[..n]);
      InnerAdds(a[..n], b[..n], key[..n]);
      assert (a[n] + b[n]) * key[n] == a[n] * key[n] + b[n] * key[n];
    }
  }

  /** The score of a query that only looks at entry i is s times that entry of the key. */
  lemma ScoreOfOne(q: Vec, key: Vec, s: real, i: nat)
    requires |q| == |key| && OnlyAt(q, i, 1.0)
    ensures Score(q, key, s) == Fin(s * key[i])
  {
    InnerOfOne(q, key, i);
  }

  /** Scores add up as queries do: with the above, that is every score there is. */
  lemma ScoreAdds(a: Vec, b: Vec, key: Vec, s: real)
    requires |a| == |b| == |key|
    ensures Score(Add(a, b), key, s).value == Score(a, key, s).value + Score(b, key, s).value
  {
    InnerAdds(a, b, key);
    assert (Inner(a, key) + Inner(b, key)) * s == Inner(a, key) * s + Inner(b, key) * s;
  }

  /** Scaling the query and the scale against each other changes no score. */
  lemma ScoreRescaled(q: Vec, key: Vec, s: real, c: real)
    requires |q| == |key| && c != 0.0
    ensures Score(Scale(q, c), key, s / c) == Score(q, key, s)
  {
    InnerOfScaled(q, c, key);
    assert c * (s / c) == s;
    assert (c * Inner(q, key)) * (s / c) == Inner(q, key) * (c * (s / c));
  }

  // ---- attention ----

  /** A query that only looks at entry i weighs position p by exp(s * keys[p][i]). */
  lemma WeightsOfOne(exp: real -> real, q: Vec, keys: Matrix, s: real, i: nat, p: nat)
    requires IsMatrix(keys, |keys|, |q|) && OnlyAt(q, i, 1.0) && p < |keys|
    ensures Weights(exp, Scores(q, keys, s))[p] == exp(s * keys[p][i])
  {
    hide Score;
    ScoreOfOne(q, keys[p], s, i);
    assert Scores(q, keys, s)[p] == Score(q, keys[p], s) == Fin(s * keys[p][i]);
  }

  /** Multiplying the query by c, and the scale by 1 / c, changes nothing. */
  lemma AttendRescaled(exp: real -> real, q: Vec, keys: Matrix, values: Matrix, s: real, c: real)
    requires IsMatrix(keys, |values|, |q|) && IsMatrix(values, |keys|, |q|) && c != 0.0
    requires Sum(Weights(exp, Scores(q, keys, s))) > 0.0
    ensures Sum(Weights(exp, Scores(Scale(q, c), keys, s / c))) > 0.0
    ensures Attend(exp, Scale(q, c), keys, values, s / c) == Attend(exp, q, keys, values, s)
  {
    hide Score, Sum;
    forall p | 0 <= p < |keys| ensures Score(Scale(q, c), keys[p], s / c) == Score(q, keys[p], s) {
      ScoreRescaled(q, keys[p], s, c);
    }
    assert Scores(Scale(q, c), keys, s / c) == Scores(q, keys, s);
  }

  lemma {:induction false} SumOfEqual(s: seq<real>, w: real)
    requires forall i | 0 <= i < |s| :: s[i] == w
    ensures Sum(s) == |s| as real * w
  {
    if s != [] {
      SumOfEqual(s[..|s| - 1], w);
      assert |s| as real * w == (|s| - 1) as real * w + w;
    }
  }

  /** Equal weights share equally. */
  lemma EqualShares(exp: real -> real, row: Row, w: real)
    requires |row| > 0 && w > 0.0 && forall p | 0 <= p < |row| :: Weights(exp, row)[p] == w
    ensures Sum(Weights(exp, row)) > 0.0
    ensures forall p | 0 <= p < |row| :: Probs(exp, row)[p] == 1.0 / |row| as real
  {
    SumOfEqual(Weights(exp, row), w);
    var n := |row| as real;
    assert n * w > 0.0;
    assert w / (n * w) == 1.0 / n;
  }

  /** Entry j of every row. */
  function Column(w: Matrix, j: nat): (r: seq<real>)
    requires forall k :: 0 <= k < |w| ==> j < |w[k]|
    ensures |r| == |w| && forall k | 0 <= k < |r| :: r[k] == w[k][j]
  {
    seq(|w|, k requires 0 <= k < |w| => w[k][j])
  }

  lemma {:induction false} DotOfEqual(x: Vec, w: Matrix, j: nat, c: real)
    requires |x| == |w| && (forall k :: 0 <= k < |w| ==> j < |w[k]|) && forall i | 0 <= i < |x| :: x[i] == c
    ensures Dot(x, w, j) == Sum(Column(w, j)) * c
  {
    if x != [] {
      var n := |x| - 1;
      DotOfEqual(x[..n], w[..n], j, c);
      assert Column(w, j)[..n] == Column(w[..n], j);
      var front, last := Sum(Column(w[..n], j)), w[n][j];
      assert (front + last) * c == front * c + last * c;
    }
  }

  /** At scale 0.0 every stored position counts the same: n times the output is the sum of the n values. */
  lemma AttendUnscaled(exp: real -> real, q: Vec, keys: Matrix, values: Matrix)
    requires Exponential(exp) && IsMatrix(keys, |values|, |q|) && IsMatrix(values, |keys|, |q|) && |keys| > 0
    ensures Sum(Weights(exp, Scores(q, keys, 0.0))) > 0.0
    ensures forall p | 0 <= p < |keys| :: Probs(exp, Scores(q, keys, 0.0))[p] == 1.0 / |keys| as real
    ensures forall j: nat | j < |q| ::
              |keys| as real * Attend(exp, q, keys, values, 0.0)[j] == Sum(Column(values, j))
  {
    hide Sum, Dot;
    forall p | 0 <= p < |keys| ensures Weights(exp, Scores(q, keys, 0.0))[p] == exp(0.0) {}
    EqualShares(exp, Scores(q, keys, 0.0), exp(0.0));
    var shares, n := Probs(exp, Scores(q, keys, 0.0)), |keys| as real;
    forall j: nat | j < |q| ensures n * Attend(exp, q, keys, values, 0.0)[j] == Sum(Column(values, j)) {
      DotOfEqual(shares, values, j, 1.0 / n);
      var total := Sum(Column(values, j));
      assert n * (total * (1.0 / n)) == total;
    }
  }
}
