/** Row-major tensors: a shape and a flat buffer.

    A view only changes the shape; a permute rebuilds the buffer.  The last dimension of the
    model's tensors (the hidden size, the head size) is never permuted, so an element is often a
    whole row. */
module Tensors {

  function Size(shape: seq<nat>): nat {
    if shape == [] then 1
    else Size(shape[..|shape| - 1]) * shape[|shape| - 1]
  }

  datatype Tensor<+T> = Tensor(shape: seq<nat>, data: seq<T>) {
    predicate Valid() {
      |data| == Size(shape)
    }
  }

  predicate InRange(shape: seq<nat>, idx: seq<nat>) {
    && |idx| == |shape|
    && forall k :: 0 <= k < |idx| ==> idx[k] < shape[k]
  }

  lemma DigitBound(high: nat, count: nat, low: nat, base: nat)
    requires high < count && low < base
    ensures high * base + low < count * base
  {
    assert (high + 1) * base <= count * base;
  }

  /** Position of a multi-index in the flat buffer. */
  function Flat(shape: seq<nat>, idx: seq<nat>): (n: nat)
    requires InRange(shape, idx)
    ensures n < Size(shape)
  {
    if shape == [] then 0
    else
      var last := |shape| - 1;
      DigitBound(Flat(shape[..last], idx[..last]), Size(shape[..last]), idx[last], shape[last]);
      Flat(shape[..last], idx[..last]) * shape[last] + idx[last]
  }

  lemma QuotientBound(n: nat, count: nat, base: nat)
    requires n < count * base
    ensures base > 0 && n / base < count
  {
    var q := n / base;
    assert count <= q ==> count * base <= q * base;
  }

  lemma Digits(n: nat, count: nat, base: nat) returns (high: nat, low: nat)
    requires n < count * base
    ensures high < count && low < base && high * base + low == n
  {
    QuotientBound(n, count, base);
    high, low := n / base, n % base;
  }

  lemma RegroupIndex(i: int, d: int, j: int, m: int, k: int)
    ensures (i * d + j) * m + k == i * (d * m) + (j * m + k)
  {}

  lemma RegroupSize(a: int, b: int, c: int)
    ensures a * b * c == a * (b * c)
  {}

  /** The multi-index stored at a flat position. */
  function Unflat(shape: seq<nat>, n: nat): (idx: seq<nat>)
    requires n < Size(shape)
    ensures InRange(shape, idx)
    ensures Flat(shape, idx) == n
  {
    if shape == [] then []
    else
      var last := |shape| - 1;
      QuotientBound(n, Size(shape[..last]), shape[last]);
      var high := Unflat(shape[..last], n / shape[last]);
      var idx := high + [n % shape[last]];
      assert idx[..last] == high;
      idx
  }

  lemma QuotientRemainder(high: nat, low: nat, base: nat)
    requires low < base
    ensures (high * base + low) / base == high
    ensures (high * base + low) % base == low
  {
    var n := high * base + low;
    var q := n / base;
    assert n == q * base + n % base;
    assert q + 1 <= high ==> (q + 1) * base <= high * base;
    assert high + 1 <= q ==> (high + 1) * base <= q * base;
  }

  lemma {:induction false} UnflatFlat(shape: seq<nat>, idx: seq<nat>)
    requires InRange(shape, idx)
    ensures Unflat(shape, Flat(shape, idx)) == idx
  {
    if shape == [] {
    } else {
      var last := |shape| - 1;
      UnflatFlat(shape[..last], idx[..last]);
      QuotientRemainder(Flat(shape[..last], idx[..last]), idx[last], shape[last]);
    }
  }

  function At<T>(t: Tensor<T>, idx: seq<nat>): T
    requires t.Valid() && InRange(t.shape, idx)
  {
    t.data[Flat(t.shape, idx)]
  }

  /** A tensor given by its entries. */
  function Build<T>(shape: seq<nat>, f: seq<nat> --> T): (t: Tensor<T>)
    requires forall idx :: InRange(shape, idx) ==> f.requires(idx)
    ensures t.Valid() && t.shape == shape
    ensures forall idx :: InRange(shape, idx) ==> At(t, idx) == f(idx)
  {
    var t := Tensor(shape, seq(Size(shape), n requires 0 <= n < Size(shape) => f(Unflat(shape, n))));
    assert forall idx :: InRange(shape, idx) ==> At(t, idx) == f(idx) by {
      forall idx | InRange(shape, idx) ensures At(t, idx) == f(idx) {
        UnflatFlat(shape, idx);
      }
    }
    t
  }

  /** Assignment to one entry. */
  function Set<T>(t: Tensor<T>, idx: seq<nat>, v: T): (r: Tensor<T>)
    requires t.Valid() && InRange(t.shape, idx)
    ensures r.Valid() && r.shape == t.shape
    ensures forall j :: InRange(t.shape, j) ==> At(r, j) == if j == idx then v else At(t, j)
  {
    var r := t.(data := t.data[Flat(t.shape, idx) := v]);
    assert forall j :: InRange(t.shape, j) ==> At(r, j) == if j == idx then v else At(t, j) by {
      forall j | InRange(t.shape, j) ensures At(r, j) == if j == idx then v else At(t, j) {
        UnflatFlat(t.shape, j);
        UnflatFlat(t.shape, idx);
      }
    }
    r
  }

  /** Same buffer, other shape. */
  function View<T>(t: Tensor<T>, shape: seq<nat>): (r: Tensor<T>)
    requires t.Valid() && Size(shape) == Size(t.shape)
    ensures r.Valid() && r.shape == shape
  {
    t.(shape := shape)
  }

  predicate IsPermutation(p: seq<nat>) {
    && (forall k :: 0 <= k < |p| ==> p[k] < |p|)
    && (forall d: nat :: d < |p| ==> d in p)
  }

  function Gather<T>(s: seq<T>, p: seq<nat>): (r: seq<T>)
    requires |p| == |s| && forall k :: 0 <= k < |p| ==> p[k] < |s|
    ensures |r| == |s| && forall k :: 0 <= k < |p| ==> r[k] == s[p[k]]
  {
    seq(|p|, k requires 0 <= k < |p| => s[p[k]])
  }

  function Find(p: seq<nat>, d: nat): (k: nat)
    requires d in p
    ensures k < |p| && p[k] == d
  {
    if p[0] == d then 0 else 1 + Find(p[1..], d)
  }

  function Scatter<T>(s: seq<T>, p: seq<nat>): (r: seq<T>)
    requires |p| == |s| && IsPermutation(p)
    ensures |r| == |s| && forall d: nat :: d < |p| ==> r[d] == s[Find(p, d)]
  {
    seq(|p|, d requires 0 <= d < |p| => s[Find(p, d)])
  }

  lemma ScatterInRange(shape: seq<nat>, p: seq<nat>, idx: seq<nat>)
    requires |p| == |shape| && IsPermutation(p)
    requires InRange(Gather(shape, p), idx)
    ensures InRange(shape, Scatter(idx, p))
  {
    var r := Scatter(idx, p);
    forall d | 0 <= d < |r| ensures r[d] < shape[d] {
      assert idx[Find(p, d)] < Gather(shape, p)[Find(p, d)];
    }
  }

  /** `t.permute(p)`: dimension k of the result is dimension p[k] of the input. */
  function Permute<T>(t: Tensor<T>, p: seq<nat>): (r: Tensor<T>)
    requires t.Valid() && |p| == |t.shape| && IsPermutation(p)
    ensures r.Valid() && r.shape == Gather(t.shape, p)
  {
    var shape := Gather(t.shape, p);
    assert forall idx :: InRange(shape, idx) ==> InRange(t.shape, Scatter(idx, p)) by {
      forall idx | InRange(shape, idx) ensures InRange(t.shape, Scatter(idx, p)) {
        ScatterInRange(t.shape, p, idx);
      }
    }
    Build(shape, idx requires InRange(shape, idx) => At(t, Scatter(idx, p)))
  }

  /** Every entry of the input is found in the result under the permuted index. */
  lemma PermuteAt<T>(t: Tensor<T>, p: seq<nat>, idx: seq<nat>)
    requires t.Valid() && |p| == |t.shape| && IsPermutation(p)
    requires InRange(t.shape, idx)
    ensures InRange(Gather(t.shape, p), Gather(idx, p))
    ensures At(Permute(t, p), Gather(idx, p)) == At(t, idx)
  {
    var j := Gather(idx, p);
    assert InRange(Gather(t.shape, p), j);
    assert Scatter(j, p) == idx;
  }

  // Entries by coordinates, rank by rank.

  predicate In2(shape: seq<nat>, i: nat, j: nat) {
    |shape| == 2 && i < shape[0] && j < shape[1]
  }

  function At2<T>(t: Tensor<T>, i: nat, j: nat): T
    requires t.Valid() && In2(t.shape, i, j)
  {
    At(t, [i, j])
  }

  predicate In3(shape: seq<nat>, i: nat, j: nat, k: nat) {
    |shape| == 3 && i < shape[0] && j < shape[1] && k < shape[2]
  }

  function At3<T>(t: Tensor<T>, i: nat, j: nat, k: nat): T
    requires t.Valid() && In3(t.shape, i, j, k)
  {
    At(t, [i, j, k])
  }

  predicate In4(shape: seq<nat>, i: nat, j: nat, k: nat, l: nat) {
    |shape| == 4 && i < shape[0] && j < shape[1] && k < shape[2] && l < shape[3]
  }

  function At4<T>(t: Tensor<T>, i: nat, j: nat, k: nat, l: nat): T
    requires t.Valid() && In4(t.shape, i, j, k, l)
  {
    At(t, [i, j, k, l])
  }

  predicate In5(shape: seq<nat>, i: nat, j: nat, k: nat, l: nat, m: nat) {
    |shape| == 5 && i < shape[0] && j < shape[1] && k < shape[2] && l < shape[3] && m < shape[4]
  }

  function At5<T>(t: Tensor<T>, i: nat, j: nat, k: nat, l: nat, m: nat): T
    requires t.Valid() && In5(t.shape, i, j, k, l, m)
  {
    At(t, [i, j, k, l, m])
  }

  function Build2<T>(d0: nat, d1: nat, f: (nat, nat) --> T): (t: Tensor<T>)
    requires forall i: nat, j: nat | i < d0 && j < d1 :: f.requires(i, j)
    ensures t.Valid() && t.shape == [d0, d1]
    ensures forall i: nat, j: nat | i < d0 && j < d1 :: At2(t, i, j) == f(i, j)
  {
    var shape := [d0, d1];
    Build(shape, idx requires InRange(shape, idx) => f(idx[0], idx[1]))
  }

  function Build3<T>(d0: nat, d1: nat, d2: nat, f: (nat, nat, nat) --> T): (t: Tensor<T>)
    requires forall i: nat, j: nat, k: nat | i < d0 && j < d1 && k < d2 :: f.requires(i, j, k)
    ensures t.Valid() && t.shape == [d0, d1, d2]
    ensures forall i: nat, j: nat, k: nat | i < d0 && j < d1 && k < d2 :: At3(t, i, j, k) == f(i, j, k)
  {
    var shape := [d0, d1, d2];
    Build(shape, idx requires InRange(shape, idx) => f(idx[0], idx[1], idx[2]))
  }

  function Build4<T>(d0: nat, d1: nat, d2: nat, d3: nat, f: (nat, nat, nat, nat) --> T): (t: Tensor<T>)
    requires forall i: nat, j: nat, k: nat, l: nat | i < d0 && j < d1 && k < d2 && l < d3 :: f.requires(i, j, k, l)
    ensures t.Valid() && t.shape == [d0, d1, d2, d3]
    ensures forall i: nat, j: nat, k: nat, l: nat | i < d0 && j < d1 && k < d2 && l < d3 ::
            At4(t, i, j, k, l) == f(i, j, k, l)
  {
    var shape := [d0, d1, d2, d3];
    Build(shape, idx requires InRange(shape, idx) => f(idx[0], idx[1], idx[2], idx[3]))
  }

  function Build5<T>(d0: nat, d1: nat, d2: nat, d3: nat, d4: nat, f: (nat, nat, nat, nat, nat) --> T): (t: Tensor<T>)
    requires forall i: nat, j: nat, k: nat, l: nat, m: nat | i < d0 && j < d1 && k < d2 && l < d3 && m < d4 ::
             f.requires(i, j, k, l, m)
    ensures t.Valid() && t.shape == [d0, d1, d2, d3, d4]
    ensures forall i: nat, j: nat, k: nat, l: nat, m: nat | i < d0 && j < d1 && k < d2 && l < d3 && m < d4 ::
            At5(t, i, j, k, l, m) == f(i, j, k, l, m)
  {
    var shape := [d0, d1, d2, d3, d4];
    Build(shape, idx requires InRange(shape, idx) => f(idx[0], idx[1], idx[2], idx[3], idx[4]))
  }

  /** Assignment to one entry. */
  function Set3<T>(t: Tensor<T>, i: nat, j: nat, k: nat, v: T): (r: Tensor<T>)
    requires t.Valid() && In3(t.shape, i, j, k)
    ensures r.Valid() && r.shape == t.shape
    ensures forall i': nat, j': nat, k': nat | In3(t.shape, i', j', k') ::
              At3(r, i', j', k') == if i' == i && j' == j && k' == k then v else At3(t, i', j', k')
  {
    var r := Set(t, [i, j, k], v);
    assert forall i': nat, j': nat, k': nat | In3(t.shape, i', j', k') ::
        At3(r, i', j', k') == if i' == i && j' == j && k' == k then v else At3(t, i', j', k') by {
      forall i': nat, j': nat, k': nat | In3(t.shape, i', j', k')
        ensures At3(r, i', j', k') == if i' == i && j' == j && k' == k then v else At3(t, i', j', k')
      {
        var x, y := [i', j', k'], [i, j, k];
        assert InRange(t.shape, x);
        assert x == y <==> x[0] == y[0] && x[1] == y[1] && x[2] == y[2];
      }
    }
    r
  }

  /** Assignment to one entry. */
  function Set4<T>(t: Tensor<T>, i: nat, j: nat, k: nat, l: nat, v: T): (r: Tensor<T>)
    requires t.Valid() && In4(t.shape, i, j, k, l)
    ensures r.Valid() && r.shape == t.shape
    ensures forall i': nat, j': nat, k': nat, l': nat | In4(t.shape, i', j', k', l') ::
              At4(r, i', j', k', l') == if i' == i && j' == j && k' == k && l' == l then v else At4(t, i', j', k', l')
  {
    var r := Set(t, [i, j, k, l], v);
    assert forall i': nat, j': nat, k': nat, l': nat | In4(t.shape, i', j', k', l') ::
        At4(r, i', j', k', l') == if i' == i && j' == j && k' == k && l' == l then v else At4(t, i', j', k', l') by {
      forall i': nat, j': nat, k': nat, l': nat | In4(t.shape, i', j', k', l')
        ensures At4(r, i', j', k', l') == if i' == i && j' == j && k' == k && l' == l then v else At4(t, i', j', k', l')
      {
        var x, y := [i', j', k', l'], [i, j, k, l];
        assert InRange(t.shape, x);
        assert x == y <==> x[0] == y[0] && x[1] == y[1] && x[2] == y[2] && x[3] == y[3];
      }
    }
    r
  }

  /** Every element satisfies p. */
  ghost predicate Each<T>(t: Tensor<T>, p: T -> bool) {
    t.Valid() && forall n :: 0 <= n < |t.data| ==> p(t.data[n])
  }

  lemma Each3<T>(t: Tensor<T>, p: T -> bool)
    requires t.Valid() && |t.shape| == 3
    requires forall i: nat, j: nat, k: nat | In3(t.shape, i, j, k) :: p(At3(t, i, j, k))
    ensures Each(t, p)
  {
    forall n | 0 <= n < |t.data| ensures p(t.data[n]) {
      var x := Unflat(t.shape, n);
      assert x == [x[0], x[1], x[2]];
      assert t.data[n] == At3(t, x[0], x[1], x[2]);
    }
  }

  lemma Each4<T>(t: Tensor<T>, p: T -> bool)
    requires t.Valid() && |t.shape| == 4
    requires forall i: nat, j: nat, k: nat, l: nat | In4(t.shape, i, j, k, l) :: p(At4(t, i, j, k, l))
    ensures Each(t, p)
  {
    forall n | 0 <= n < |t.data| ensures p(t.data[n]) {
      var x := Unflat(t.shape, n);
      assert x == [x[0], x[1], x[2], x[3]];
      assert t.data[n] == At4(t, x[0], x[1], x[2], x[3]);
    }
  }

  lemma Each5<T>(t: Tensor<T>, p: T -> bool)
    requires t.Valid() && |t.shape| == 5
    requires forall i: nat, j: nat, k: nat, l: nat, m: nat | In5(t.shape, i, j, k, l, m) :: p(At5(t, i, j, k, l, m))
    ensures Each(t, p)
  {
    forall n | 0 <= n < |t.data| ensures p(t.data[n]) {
      var x := Unflat(t.shape, n);
      assert x == [x[0], x[1], x[2], x[3], x[4]];
      assert t.data[n] == At5(t, x[0], x[1], x[2], x[3], x[4]);
    }
  }

  // Sizes of the ranks in use, unrolled.

  lemma Size2(d0: nat, d1: nat)
    ensures Size([d0, d1]) == d0 * d1
  {
    assert [d0, d1][..1] == [d0] && [d0][..0] == [];
    assert Size([d0]) == Size([]) * d0 == d0;
  }

  lemma Size3(d0: nat, d1: nat, d2: nat)
    ensures Size([d0, d1, d2]) == d0 * d1 * d2
  {
    Size2(d0, d1);
    assert [d0, d1, d2][..2] == [d0, d1];
  }

  lemma Size4(d0: nat, d1: nat, d2: nat, d3: nat)
    ensures Size([d0, d1, d2, d3]) == d0 * d1 * d2 * d3
  {
    Size3(d0, d1, d2);
    assert [d0, d1, d2, d3][..3] == [d0, d1, d2];
  }

  lemma Size5(d0: nat, d1: nat, d2: nat, d3: nat, d4: nat)
    ensures Size([d0, d1, d2, d3, d4]) == d0 * d1 * d2 * d3 * d4
  {
    Size4(d0, d1, d2, d3);
    assert [d0, d1, d2, d3, d4][..4] == [d0, d1, d2, d3];
  }

  // Views: when two indices of two shapes name the same cell of one buffer.

  ghost predicate SamePlace(shape: seq<nat>, idx: seq<nat>, shape': seq<nat>, idx': seq<nat>) {
    && InRange(shape, idx) && InRange(shape', idx')
    && Size(shape) == Size(shape')
    && Flat(shape, idx) == Flat(shape', idx')
  }

  lemma ViewAt<T>(t: Tensor<T>, shape: seq<nat>, idx: seq<nat>, idx': seq<nat>)
    requires t.Valid() && SamePlace(t.shape, idx, shape, idx')
    ensures At(View(t, shape), idx') == At(t, idx)
  {}

  lemma FlatExtend(shape: seq<nat>, idx: seq<nat>, d: nat, x: nat)
    requires InRange(shape, idx) && x < d
    ensures InRange(shape + [d], idx + [x])
    ensures Size(shape + [d]) == Size(shape) * d
    ensures Flat(shape + [d], idx + [x]) == Flat(shape, idx) * d + x
  {
    assert (shape + [d])[..|shape|] == shape && (idx + [x])[..|idx|] == idx;
  }

  // Where the ranks in use keep their entries: row-major.

  lemma FlatOne(d: nat, i: nat)
    requires i < d
    ensures InRange([d], [i]) && Flat([d], [i]) == i && Size([d]) == d
  {
    FlatExtend([], [], d, i);
    assert [] + [d] == [d] && [] + [i] == [i];
  }

  lemma At2Is<T>(t: Tensor<T>, i: nat, j: nat, n: nat)
    requires t.Valid() && In2(t.shape, i, j) && n == i * t.shape[1] + j
    ensures n < |t.data| && At2(t, i, j) == t.data[n]
  {
    var s := t.shape;
    FlatOne(s[0], i);
    FlatExtend([s[0]], [i], s[1], j);
    assert s == [s[0]] + [s[1]] && [i, j] == [i] + [j];
  }

  lemma At3Is<T>(t: Tensor<T>, i: nat, j: nat, k: nat, n: nat)
    requires t.Valid() && In3(t.shape, i, j, k) && n == (i * t.shape[1] + j) * t.shape[2] + k
    ensures n < |t.data| && At3(t, i, j, k) == t.data[n]
  {
    var s := t.shape;
    FlatOne(s[0], i);
    FlatExtend([s[0]], [i], s[1], j);
    FlatExtend([s[0]] + [s[1]], [i] + [j], s[2], k);
    assert s == [s[0]] + [s[1]] + [s[2]] && [i, j, k] == [i] + [j] + [k];
  }

  lemma At4Is<T>(t: Tensor<T>, i: nat, j: nat, k: nat, l: nat, n: nat)
    requires t.Valid() && In4(t.shape, i, j, k, l)
    requires n == ((i * t.shape[1] + j) * t.shape[2] + k) * t.shape[3] + l
    ensures n < |t.data| && At4(t, i, j, k, l) == t.data[n]
  {
    var s := t.shape;
    FlatOne(s[0], i);
    FlatExtend([s[0]], [i], s[1], j);
    FlatExtend([s[0]] + [s[1]], [i] + [j], s[2], k);
    FlatExtend([s[0]] + [s[1]] + [s[2]], [i] + [j] + [k], s[3], l);
    assert s == [s[0]] + [s[1]] + [s[2]] + [s[3]] && [i, j, k, l] == [i] + [j] + [k] + [l];
  }

  lemma Extend(shape: seq<nat>, idx: seq<nat>, shape': seq<nat>, idx': seq<nat>, d: nat, x: nat)
    requires SamePlace(shape, idx, shape', idx') && x < d
    ensures SamePlace(shape + [d], idx + [x], shape' + [d], idx' + [x])
  {
    FlatExtend(shape, idx, d, x);
    FlatExtend(shape', idx', d, x);
  }

  lemma AddOne(shape: seq<nat>, idx: seq<nat>)
    requires InRange(shape, idx)
    ensures SamePlace(shape, idx, shape + [1], idx + [0])
  {
    FlatExtend(shape, idx, 1, 0);
  }

  /** The last two dimensions d1, d2 merge into one of size d1 * d2. */
  lemma Merge(shape: seq<nat>, idx: seq<nat>, d1: nat, d2: nat, i1: nat, i2: nat, d: nat, x: nat)
    requires InRange(shape, idx) && i1 < d1 && i2 < d2
    requires d == d1 * d2 && x == i1 * d2 + i2
    ensures SamePlace(shape + [d1] + [d2], idx + [i1] + [i2], shape + [d], idx + [x])
  {
    FlatExtend(shape, idx, d1, i1);
    FlatExtend(shape + [d1], idx + [i1], d2, i2);
    DigitBound(i1, d1, i2, d2);
    FlatExtend(shape, idx, d, x);
    RegroupSize(Size(shape), d1, d2);
    RegroupIndex(Flat(shape, idx), d1, i1, d2, i2);
  }

  // The instances in use: d, x are the merged size and index.

  lemma MergeLast3(d0: nat, d1: nat, d2: nat, i0: nat, i1: nat, i2: nat, d: nat, x: nat)
    requires i0 < d0 && i1 < d1 && i2 < d2
    requires d == d1 * d2 && x == i1 * d2 + i2
    ensures SamePlace([d0, d1, d2], [i0, i1, i2], [d0, d], [i0, x])
  {
    Merge([d0], [i0], d1, d2, i1, i2, d, x);
    assert [d0, d1, d2] == [d0] + [d1] + [d2] && [i0, i1, i2] == [i0] + [i1] + [i2];
    assert [d0, d] == [d0] + [d] && [i0, x] == [i0] + [x];
  }

  lemma MergeTwo(d0: nat, d1: nat, i0: nat, i1: nat, d: nat, x: nat)
    requires i0 < d0 && i1 < d1
    requires d == d0 * d1 && x == i0 * d1 + i1
    ensures SamePlace([d0, d1], [i0, i1], [d], [x])
  {
    assert [d0, d1] == [] + [d0] + [d1] && [i0, i1] == [] + [i0] + [i1];
    assert [d] == [] + [d] && [x] == [] + [x];
    Merge([], [], d0, d1, i0, i1, d, x);
  }

  lemma MergeFirst3(d0: nat, d1: nat, d2: nat, i0: nat, i1: nat, i2: nat, d: nat, x: nat)
    requires i0 < d0 && i1 < d1 && i2 < d2
    requires d == d0 * d1 && x == i0 * d1 + i1
    ensures SamePlace([d0, d1, d2], [i0, i1, i2], [d, d2], [x, i2])
  {
    MergeTwo(d0, d1, i0, i1, d, x);
    Extend([d0, d1], [i0, i1], [d], [x], d2, i2);
    assert [d0, d1, d2] == [d0, d1] + [d2] && [i0, i1, i2] == [i0, i1] + [i2];
    assert [d, d2] == [d] + [d2] && [x, i2] == [x] + [i2];
  }

  lemma MergeLast4(d0: nat, d1: nat, d2: nat, d3: nat, i0: nat, i1: nat, i2: nat, i3: nat, d: nat, x: nat)
    requires i0 < d0 && i1 < d1 && i2 < d2 && i3 < d3
    requires d == d2 * d3 && x == i2 * d3 + i3
    ensures SamePlace([d0, d1, d2, d3], [i0, i1, i2, i3], [d0, d1, d], [i0, i1, x])
  {
    Merge([d0, d1], [i0, i1], d2, d3, i2, i3, d, x);
    assert [d0, d1, d2, d3] == [d0, d1] + [d2] + [d3] && [i0, i1, i2, i3] == [i0, i1] + [i2] + [i3];
    assert [d0, d1, d] == [d0, d1] + [d] && [i0, i1, x] == [i0, i1] + [x];
  }

  lemma MergeMiddle4(d0: nat, d1: nat, d2: nat, d3: nat, i0: nat, i1: nat, i2: nat, i3: nat, d: nat, x: nat)
    requires i0 < d0 && i1 < d1 && i2 < d2 && i3 < d3
    requires d == d1 * d2 && x == i1 * d2 + i2
    ensures SamePlace([d0, d1, d2, d3], [i0, i1, i2, i3], [d0, d, d3], [i0, x, i3])
  {
    MergeLast3(d0, d1, d2, i0, i1, i2, d, x);
    Extend([d0, d1, d2], [i0, i1, i2], [d0, d], [i0, x], d3, i3);
    assert [d0, d1, d2, d3] == [d0, d1, d2] + [d3] && [i0, i1, i2, i3] == [i0, i1, i2] + [i3];
    assert [d0, d, d3] == [d0, d] + [d3] && [i0, x, i3] == [i0, x] + [i3];
  }

  lemma MergeFirst4(d0: nat, d1: nat, d2: nat, d3: nat, i0: nat, i1: nat, i2: nat, i3: nat, d: nat, x: nat)
    requires i0 < d0 && i1 < d1 && i2 < d2 && i3 < d3
    requires d == d0 * d1 && x == i0 * d1 + i1
    ensures SamePlace([d0, d1, d2, d3], [i0, i1, i2, i3], [d, d2, d3], [x, i2, i3])
  {
    MergeFirst3(d0, d1, d2, i0, i1, i2, d, x);
    Extend([d0, d1, d2], [i0, i1, i2], [d, d2], [x, i2], d3, i3);
    assert [d0, d1, d2, d3] == [d0, d1, d2] + [d3] && [i0, i1, i2, i3] == [i0, i1, i2] + [i3];
    assert [d, d2, d3] == [d, d2] + [d3] && [x, i2, i3] == [x, i2] + [i3];
  }

  lemma DropSecond3(d0: nat, d1: nat, i0: nat, i1: nat)
    requires i0 < d0 && i1 < d1
    ensures SamePlace([d0, 1, d1], [i0, 0, i1], [d0, d1], [i0, i1])
  {
    AddOne([d0], [i0]);
    Extend([d0] + [1], [i0] + [0], [d0], [i0], d1, i1);
    assert [d0, 1, d1] == [d0] + [1] + [d1] && [i0, 0, i1] == [i0] + [0] + [i1];
    assert [d0, d1] == [d0] + [d1] && [i0, i1] == [i0] + [i1];
  }

  lemma DropSecond4(d0: nat, d1: nat, d2: nat, i0: nat, i1: nat, i2: nat)
    requires i0 < d0 && i1 < d1 && i2 < d2
    ensures SamePlace([d0, 1, d1, d2], [i0, 0, i1, i2], [d0, d1, d2], [i0, i1, i2])
  {
    DropSecond3(d0, d1, i0, i1);
    Extend([d0, 1, d1], [i0, 0, i1], [d0, d1], [i0, i1], d2, i2);
    assert [d0, 1, d1, d2] == [d0, 1, d1] + [d2] && [i0, 0, i1, i2] == [i0, 0, i1] + [i2];
    assert [d0, d1, d2] == [d0, d1] + [d2] && [i0, i1, i2] == [i0, i1] + [i2];
  }

  lemma DropThird4(d0: nat, d1: nat, d2: nat, i0: nat, i1: nat, i2: nat)
    requires i0 < d0 && i1 < d1 && i2 < d2
    ensures SamePlace([d0, d1, 1, d2], [i0, i1, 0, i2], [d0, d1, d2], [i0, i1, i2])
  {
    AddOne([d0, d1], [i0, i1]);
    Extend([d0, d1] + [1], [i0, i1] + [0], [d0, d1], [i0, i1], d2, i2);
    assert [d0, d1, 1, d2] == [d0, d1] + [1] + [d2] && [i0, i1, 0, i2] == [i0, i1] + [0] + [i2];
    assert [d0, d1, d2] == [d0, d1] + [d2] && [i0, i1, i2] == [i0, i1] + [i2];
  }

  lemma DropThird5(d0: nat, d1: nat, d2: nat, d3: nat, i0: nat, i1: nat, i2: nat, i3: nat)
    requires i0 < d0 && i1 < d1 && i2 < d2 && i3 < d3
    ensures SamePlace([d0, d1, 1, d2, d3], [i0, i1, 0, i2, i3], [d0, d1, d2, d3], [i0, i1, i2, i3])
  {
    DropThird4(d0, d1, d2, i0, i1, i2);
    Extend([d0, d1, 1, d2], [i0, i1, 0, i2], [d0, d1, d2], [i0, i1, i2], d3, i3);
    assert [d0, d1, 1, d2, d3] == [d0, d1, 1, d2] + [d3] && [i0, i1, 0, i2, i3] == [i0, i1, 0, i2] + [i3];
    assert [d0, d1, d2, d3] == [d0, d1, d2] + [d3] && [i0, i1, i2, i3] == [i0, i1, i2] + [i3];
  }

  lemma DropFirst3(d0: nat, d1: nat, i0: nat, i1: nat)
    requires i0 < d0 && i1 < d1
    ensures SamePlace([1, d0, d1], [0, i0, i1], [d0, d1], [i0, i1])
  {
    Merge([], [], 1, d0, 0, i0, d0, i0);
    Extend([] + [1] + [d0], [] + [0] + [i0], [] + [d0], [] + [i0], d1, i1);
    assert [1, d0, d1] == [] + [1] + [d0] + [d1] && [0, i0, i1] == [] + [0] + [i0] + [i1];
    assert [d0, d1] == [] + [d0] + [d1] && [i0, i1] == [] + [i0] + [i1];
  }

  lemma DropFirst4(d0: nat, d1: nat, d2: nat, i0: nat, i1: nat, i2: nat)
    requires i0 < d0 && i1 < d1 && i2 < d2
    ensures SamePlace([1, d0, d1, d2], [0, i0, i1, i2], [d0, d1, d2], [i0, i1, i2])
  {
    DropFirst3(d0, d1, i0, i1);
    Extend([1, d0, d1], [0, i0, i1], [d0, d1], [i0, i1], d2, i2);
    assert [1, d0, d1, d2] == [1, d0, d1] + [d2] && [0, i0, i1, i2] == [0, i0, i1] + [i2];
    assert [d0, d1, d2] == [d0, d1] + [d2] && [i0, i1, i2] == [i0, i1] + [i2];
  }
}
