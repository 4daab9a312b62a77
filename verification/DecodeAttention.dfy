/** Attention of one new token over a paged cache: it sees its user's keys and values, and nothing else. */
module DecodeAttention {
  import opened Basics
  import opened Tensors
  import opened Experts
  import opened Softmax
  import opened PagedOps
  import opened PagedCache

  // ---- attention over a plain list of keys and values ----

  function Inner(a: Vec, b: Vec): real
    requires |a| == |b|
  {
    if a == [] then 0.0 else Inner(a[..|a| - 1], b[..|b| - 1]) + a[|a| - 1] * b[|b| - 1]
  }

  function Score(q: Vec, key: Vec, scale: real): (l: Logit)
    requires |q| == |key|
    ensures l.Fin?
  {
    Fin(Inner(q, key) * scale)
  }

  function Scores(q: Vec, keys: Matrix, scale: real): (row: Row)
    requires forall p | 0 <= p < |keys| :: |keys[p]| == |q|
    ensures |row| == |keys| && forall p | 0 <= p < |row| :: row[p] == Score(q, keys[p], scale)
  {
    seq(|keys|, p requires 0 <= p < |keys| => Score(q, keys[p], scale))
  }

  lemma SomeScore(exp: real -> real, row: Row)
    requires Exponential(exp) && |row| > 0 && row[0].Fin?
    ensures Sum(Weights(exp, row)) > 0.0
  {
    assert HasFinite(row);
    WeightsPositive(exp, row);
  }

  /** `softmax(q @ keys.T * scale) @ values`. */
  function Attend(exp: real -> real, q: Vec, keys: Matrix, values: Matrix, scale: real): Vec
    requires IsMatrix(keys, |values|, |q|) && IsMatrix(values, |keys|, |q|)
    requires Sum(Weights(exp, Scores(q, keys, scale))) > 0.0
  {
    RowMul(Probs(exp, Scores(q, keys, scale)), values, |q|)
  }

  // ---- masked positions weigh nothing ----

  lemma {:induction false} SumOfPrefix(s: seq<real>, n: nat)
    requires n <= |s| && forall p | n <= p < |s| :: s[p] == 0.0
    ensures Sum(s) == Sum(s[..n])
    decreases |s|
  {
    if n == |s| {
      assert s[..n] == s;
    } else {
      SumOfPrefix(s[..|s| - 1], n);
      assert s[..|s| - 1][..n] == s[..n];
    }
  }

  lemma {:induction false} DotOfPrefix(x: Vec, w: Matrix, j: nat, n: nat)
    requires |x| == |w| && (forall k :: 0 <= k < |w| ==> j < |w[k]|)
    requires n <= |x| && forall p | n <= p < |x| :: x[p] == 0.0
    ensures Dot(x, w, j) == Dot(x[..n], w[..n], j)
    decreases |x|
  {
    if n == |x| {
      assert x[..n] == x && w[..n] == w;
    } else {
      DotOfPrefix(x[..|x| - 1], w[..|w| - 1], j, n);
      assert x[..|x| - 1][..n] == x[..n] && w[..|w| - 1][..n] == w[..n];
    }
  }

  lemma ProbsOfPrefix(exp: real -> real, row: Row, n: nat)
    requires n <= |row| && forall p | n <= p < |row| :: row[p].NegInf?
    requires Sum(Weights(exp, row[..n])) > 0.0
    ensures Sum(Weights(exp, row)) > 0.0
    ensures Probs(exp, row)[..n] == Probs(exp, row[..n])
    ensures forall p | n <= p < |row| :: Probs(exp, row)[p] == 0.0
  {
    hide Sum;
    SumOfPrefix(Weights(exp, row), n);
    assert Weights(exp, row)[..n] == Weights(exp, row[..n]);
  }

  /** Attention over a row of which all but the first n positions are masked is attention over those n. */
  lemma MaskedAttend(exp: real -> real, row: Row, values: Matrix, size: nat, n: nat)
    requires n <= |row| && (forall p | n <= p < |row| :: row[p].NegInf?) && IsMatrix(values, |row|, size)
    requires Sum(Weights(exp, row[..n])) > 0.0
    ensures Sum(Weights(exp, row)) > 0.0
    ensures RowMul(Probs(exp, row), values, size) == RowMul(Probs(exp, row[..n]), values[..n], size)
  {
    ProbsOfPrefix(exp, row, n);
    forall j | 0 <= j < size
      ensures Dot(Probs(exp, row), values, j) == Dot(Probs(exp, row[..n]), values[..n], j)
    {
      DotOfPrefix(Probs(exp, row), values, j, n);
    }
  }

  // ---- one head of one row ----

  /** What a user has stored for one head, position by position. */
  function HeadOf(s: Stored<Vec>, h: nat): (m: Matrix)
    requires forall p | 0 <= p < |s.keys| :: h < |s.keys[p]|
    ensures |m| == |s.keys| && forall p | 0 <= p < |m| :: m[p] == s.keys[p][h]
  {
    seq(|s.keys|, p requires 0 <= p < |s.keys| => s.keys[p][h])
  }

  /** One head of a gathered row, position by position. */
  function HeadRow(t: Tensor<Vec>, heads: nat, length: nat, h: nat): (m: Matrix)
    requires t.Valid() && t.shape == [heads, length] && h < heads
    ensures |m| == length && forall p: nat | p < length :: m[p] == At2(t, h, p)
  {
    seq(length, p requires 0 <= p < length => At2(t, h, p))
  }

  /** `q @ keys.T * scale + mask`. */
  function MaskedScores(q: Vec, keys: Matrix, scale: real, mask: seq<bool>): (row: Row)
    requires |mask| == |keys| && forall p | 0 <= p < |keys| :: |keys[p]| == |q|
    ensures |row| == |keys|
    ensures forall p | 0 <= p < |row| :: row[p] == if mask[p] then NegInf else Score(q, keys[p], scale)
  {
    seq(|keys|, p requires 0 <= p < |keys| => if mask[p] then NegInf else Score(q, keys[p], scale))
  }

  /** Every cell is one head's vector. */
  ghost predicate Wide(cache: Tensor<Vec>, size: nat) {
    Each(cache, (v: Vec) => |v| == size)
  }

  lemma WideCell(cache: Tensor<Vec>, size: nat, q: nat, h: nat, o: nat)
    requires Wide(cache, size) && cache.Valid() && In3(cache.shape, q, h, o)
    ensures |At3(cache, q, h, o)| == size
  {
    assert At3(cache, q, h, o) == cache.data[Flat(cache.shape, [q, h, o])];
  }

  lemma GatheredWide(z: Sizes, cache: Tensor<Vec>, size: nat, row: seq<nat>, length: nat, h: nat)
    requires IsCache(cache, z.pages, z.heads, z.block) && Wide(cache, size) && length == |row| * z.block
    requires (forall n :: 0 <= n < |row| ==> row[n] < z.pages) && h < z.heads
    ensures IsMatrix(HeadRow(GatherRow(cache, z.pages, z.heads, z.block, row, length), z.heads, length, h), length,
                     size)
  {
    var gathered := GatherRow(cache, z.pages, z.heads, z.block, row, length);
    forall p: nat | p < length ensures |At2(gathered, h, p)| == size {
      var n, o := Digits(p, |row|, z.block);
      GatherRowAt(cache, z.pages, z.heads, z.block, row, length, n, h, o);
      assert |At3(cache, row[n], h, o)| == size by { WideCell(cache, size, row[n], h, o); }
    }
  }

  /** What one row needs: a user whose keys and values are as many, the current position at their end, and its pages
      listed in the table. */
  ghost predicate Reads(z: Sizes, ks: map<User, Stored<Vec>>, vs: map<User, Stored<Vec>>, u: User, row: seq<nat>,
                        current: nat, length: nat) {
    && u in ks && u in vs && |ks[u].keys| == |vs[u].keys| > 0
    && Lists(z, ks[u], row) && Lists(z, vs[u], row) && ReadsToEnd(current, length, ks[u])
  }

  /** `softmax(q @ keys.T * scale + mask) @ values`, for one head of one row. */
  function AttendMasked(exp: real -> real, q: Vec, keys: Matrix, values: Matrix, mask: seq<bool>, scale: real): Vec
    requires IsMatrix(keys, |mask|, |q|) && IsMatrix(values, |mask|, |q|)
    requires Sum(Weights(exp, MaskedScores(q, keys, scale, mask))) > 0.0
  {
    RowMul(Probs(exp, MaskedScores(q, keys, scale, mask)), values, |q|)
  }

  /** Masked attention over what was gathered is plain attention over what is open. */
  lemma OpenAttend(exp: real -> real, q: Vec, keys: Matrix, values: Matrix, mask: seq<bool>, scale: real,
                   ks: Matrix, vs: Matrix)
    requires Exponential(exp) && IsMatrix(keys, |mask|, |q|) && IsMatrix(values, |mask|, |q|)
    requires 0 < |ks| == |vs| <= |mask| && forall p | 0 <= p < |mask| :: mask[p] <==> p >= |ks|
    requires forall p | 0 <= p < |ks| :: keys[p] == ks[p] && values[p] == vs[p]
    ensures IsMatrix(ks, |vs|, |q|) && IsMatrix(vs, |ks|, |q|) && Sum(Weights(exp, Scores(q, ks, scale))) > 0.0
    ensures Sum(Weights(exp, MaskedScores(q, keys, scale, mask))) > 0.0
    ensures AttendMasked(exp, q, keys, values, mask, scale) == Attend(exp, q, ks, vs, scale)
  {
    hide Sum, Weight, Dot, Score;
    var row := MaskedScores(q, keys, scale, mask);
    var n := |ks|;
    assert row[..n] == Scores(q, ks, scale) && values[..n] == vs;
    SomeScore(exp, Scores(q, ks, scale));
    MaskedAttend(exp, row, values, |q|, n);
  }

  lemma DecodeLists(z: Sizes, st: map<User, Stored<Vec>>, step: Step<Vec>, r: nat, u: User)
    requires Safe(z, st, step) && step.length == 1 && Serves(step, u, r) && u in st
    requires forall n :: 0 <= n < |step.table[r]| ==> step.table[r][n] < z.pages
    ensures u in After(z, st, step) && Lists(z, After(z, st, step)[u], step.table[r])
    ensures |After(z, st, step)[u].keys| == |st[u].keys| + 1 && step.positions[r] + 1 == |After(z, st, step)[u].keys|
  {
    hide After, SafeDecode;
    DecodeIsLast(z, st, step, r, u);
    DecodeAppends(z, st, step, u);
    assert Served(step, u) && After(z, st, step)[u] == RowAfter(z, st, step, r);
  }

  /** The decode step that has just written a row's key and value leaves the row ready to be attended to: its user's
      keys and values are as many, the position written is the last one, and the pages are listed. */
  lemma DecodeReads(z: Sizes, ks: map<User, Stored<Vec>>, vs: map<User, Stored<Vec>>, key: Step<Vec>, value: Step<Vec>,
                    r: nat, u: User, length: nat)
    requires Safe(z, ks, key) && Safe(z, vs, value) && key.length == value.length == 1
    requires key.users == value.users && key.table == value.table && key.positions == value.positions
    requires Serves(key, u, r) && r < |key.positions| && key.positions[r] >= 0
    requires u in ks && u in vs && |ks[u].keys| == |vs[u].keys|
    requires forall n :: 0 <= n < |key.table[r]| ==> key.table[r][n] < z.pages
    ensures Reads(z, After(z, ks, key), After(z, vs, value), u, key.table[r], key.positions[r], length)
  {
    hide Safe, After, Lists, RowAfter;
    DecodeLists(z, ks, key, r, u);
    DecodeLists(z, vs, value, r, u);
  }

  /** What the attention of one row and head comes to: attention over what the user has stored. */
  ghost predicate Attends(exp: real -> real, out: Vec, q: Vec, k: Stored<Vec>, v: Stored<Vec>, h: nat, scale: real) {
    && |k.keys| == |v.keys| && (forall p | 0 <= p < |k.keys| :: h < |k.keys[p]| && h < |v.keys[p]|)
    && IsMatrix(HeadOf(k, h), |v.keys|, |q|) && IsMatrix(HeadOf(v, h), |k.keys|, |q|)
    && Sum(Weights(exp, Scores(q, HeadOf(k, h), scale))) > 0.0
    && out == Attend(exp, q, HeadOf(k, h), HeadOf(v, h), scale)
  }

  /** What is gathered for one row. */
  ghost predicate Gathered(z: Sizes, keys: Tensor<Vec>, values: Tensor<Vec>, mask: seq<bool>, length: nat,
                           k: Stored<Vec>, v: Stored<Vec>) {
    && Spells(z, keys, length, k) && Spells(z, values, length, v) && Opens(mask, length, k)
    && 0 < |k.keys| == |v.keys|
  }

  lemma AttendsRow(z: Sizes, exp: real -> real, q: Vec, keys: Tensor<Vec>, values: Tensor<Vec>, mask: seq<bool>,
                   scale: real, length: nat, h: nat, k: Stored<Vec>, v: Stored<Vec>)
    requires Exponential(exp) && Gathered(z, keys, values, mask, length, k, v) && h < z.heads
    requires IsMatrix(HeadRow(keys, z.heads, length, h), length, |q|)
    requires IsMatrix(HeadRow(values, z.heads, length, h), length, |q|)
    requires Sum(Weights(exp, MaskedScores(q, HeadRow(keys, z.heads, length, h), scale, mask))) > 0.0
    ensures Attends(exp, AttendMasked(exp, q, HeadRow(keys, z.heads, length, h), HeadRow(values, z.heads, length, h),
                                      mask, scale),
                    q, k, v, h, scale)
  {
    hide Sum, Weight, Attend, AttendMasked, Scores, MaskedScores;
    forall p: nat | p < |k.keys|
      ensures h < |k.keys[p]| && HeadRow(keys, z.heads, length, h)[p] == k.keys[p][h]
      ensures h < |v.keys[p]| && HeadRow(values, z.heads, length, h)[p] == v.keys[p][h]
    {
      var a, b := At2(keys, h, p), At2(values, h, p);
      assert a == k.keys[p][h] && b == v.keys[p][h];
    }
    OpenAttend(exp, q, HeadRow(keys, z.heads, length, h), HeadRow(values, z.heads, length, h), mask, scale,
               HeadOf(k, h), HeadOf(v, h));
  }

  lemma OpenAtStart(exp: real -> real, q: Vec, keys: Matrix, scale: real, length: nat, current: nat)
    requires Exponential(exp) && length > 0 && IsMatrix(keys, length, |q|)
    ensures Sum(Weights(exp, MaskedScores(q, keys, scale, Closed(length, current)))) > 0.0
  {
    SomeScore(exp, MaskedScores(q, keys, scale, Closed(length, current)));
  }

  lemma WideQuery(query: Tensor<Vec>, size: nat, r: nat, h: nat)
    requires Wide(query, size) && query.Valid() && In2(query.shape, r, h)
    ensures |At2(query, r, h)| == size
  {
    assert At2(query, r, h) == query.data[Flat(query.shape, [r, h])];
  }

  /** The decode attention: for every row that serves a user, and every head, attention over exactly the keys and
      values the user has stored, whatever else the pages hold. */
  method Attention(z: Sizes, exp: real -> real, kCache: Tensor<Vec>, vCache: Tensor<Vec>, table: PageTable, width: nat,
                   length: nat, current: seq<nat>, query: Tensor<Vec>, size: nat, scale: real,
                   ghost ks: map<User, Stored<Vec>>, ghost vs: map<User, Stored<Vec>>,
                   ghost users: seq<Option<User>>)
    returns (out: Tensor<Vec>)
    requires Exponential(exp) && z.Holds(kCache, ks) && z.Holds(vCache, vs) && Wide(kCache, size) && Wide(vCache, size)
    requires |users| == |table| == |current| && length == width * z.block && length > 0
    requires query.Valid() && query.shape == [|table|, z.heads] && Wide(query, size)
    requires forall r :: 0 <= r < |table| ==>
               |table[r]| == width && forall n :: 0 <= n < width ==> table[r][n] < z.pages
    requires forall r :: 0 <= r < |table| && users[r].Some? ==>
               Reads(z, ks, vs, users[r].value, table[r], current[r], length)
    ensures out.Valid() && out.shape == [|table|, z.heads]
    ensures forall r: nat, h: nat | r < |table| && h < z.heads && users[r].Some? ::
              && users[r].value in ks && users[r].value in vs
              && Attends(exp, At2(out, r, h), At2(query, r, h), ks[users[r].value], vs[users[r].value], h, scale)
  {
    hide Sum, Weight, Attend, AttendMasked, Scores, MaskedScores, Opens, Closed, ReadsToEnd, GatherRow, Attends, Spells,
      Lists, Exponential;
    var keyRows, masks := GatherAll(z, kCache, table, width, length, current, ks, users);
    var valueRows, masks' := GatherAll(z, vCache, table, width, length, current, vs, users);
    forall r: nat, h: nat | r < |table| && h < z.heads
      ensures |At2(query, r, h)| == size
      ensures IsMatrix(HeadRow(keyRows[r], z.heads, length, h), length, size)
      ensures IsMatrix(HeadRow(valueRows[r], z.heads, length, h), length, size)
      ensures Sum(Weights(exp, MaskedScores(At2(query, r, h), HeadRow(keyRows[r], z.heads, length, h), scale,
                                            masks[r])))
              > 0.0
    {
      WideQuery(query, size, r, h);
      GatheredWide(z, kCache, size, table[r], length, h);
      GatheredWide(z, vCache, size, table[r], length, h);
      OpenAtStart(exp, At2(query, r, h), HeadRow(keyRows[r], z.heads, length, h), scale, length, current[r]);
    }
    out := Build2(|table|, z.heads, (r: nat, h: nat) requires r < |table| && h < z.heads =>
      AttendMasked(exp, At2(query, r, h), HeadRow(keyRows[r], z.heads, length, h),
                   HeadRow(valueRows[r], z.heads, length, h), masks[r], scale));
    forall r: nat, h: nat | r < |table| && h < z.heads && users[r].Some?
      ensures users[r].value in ks && users[r].value in vs
      ensures Attends(exp, At2(out, r, h), At2(query, r, h), ks[users[r].value], vs[users[r].value], h, scale)
    {
      assert Reads(z, ks, vs, users[r].value, table[r], current[r], length);
      AttendsRow(z, exp, At2(query, r, h), keyRows[r], valueRows[r], masks[r], scale, length, h,
                 ks[users[r].value], vs[users[r].value]);
    }
  }
}
