/** The paged cache over whole runs: it refines one growing sequence of keys per user. */
module PagedCache {
  import opened Basics
  import opened Tensors
  import opened PagedOps

  type User = nat

  /** What a user has stored: keys[p][h] is the key of position p and head h. */
  datatype Stored<+T> = Stored(pages: seq<nat>, keys: seq<seq<T>>)

  datatype Sizes = Sizes(pages: nat, heads: nat, block: nat) {
    /** Block n of a user holds at least one of its positions. */
    predicate Live<T>(s: Stored<T>, n: nat) {
      Pos(n, block, 0) < |s.keys|
    }

    ghost predicate WellFormed<T>(s: Stored<T>) {
      && (forall p :: 0 <= p < |s.keys| ==> |s.keys[p]| == heads)
      && (forall n: nat | Live(s, n) :: n < |s.pages| && s.pages[n] < pages)
    }

    /** Live pages are distinct, within a user and across users. */
    ghost predicate Exclusive<T>(st: map<User, Stored<T>>) {
      forall u, n: nat, u', n': nat | u in st && u' in st && Live(st[u], n) && Live(st[u'], n')
          && n < |st[u].pages| && n' < |st[u'].pages| && st[u].pages[n] == st[u'].pages[n'] ::
        u == u' && n == n'
    }

    lemma LiveBlock<T>(s: Stored<T>, n: nat, o: nat)
      requires Pos(n, block, o) < |s.keys|
      ensures Live(s, n)
    {}

    /** Offset o of the user's n-th page holds the key of its position. */
    ghost predicate HoldsKey<T>(cache: Tensor<T>, s: Stored<T>, n: nat, o: nat, h: nat)
      requires IsCache(cache, pages, heads, block) && o < block && h < heads
    {
      && Pos(n, block, o) < |s.keys| && n < |s.pages| && s.pages[n] < pages
      && |s.keys[Pos(n, block, o)]| == heads
      && At3(cache, s.pages[n], h, o) == s.keys[Pos(n, block, o)][h]
    }

    /** The cache holds a user's keys, page by page. */
    ghost predicate HoldsUser<T>(cache: Tensor<T>, s: Stored<T>) {
      && IsCache(cache, pages, heads, block)
      && WellFormed(s)
      && forall n: nat, o: nat, h: nat | o < block && h < heads && Pos(n, block, o) < |s.keys| ::
           HoldsKey(cache, s, n, o, h)
    }

    ghost predicate Holds<T>(cache: Tensor<T>, st: map<User, Stored<T>>) {
      && IsCache(cache, pages, heads, block)
      && forall u | u in st :: HoldsUser(cache, st[u])
    }
  }

  /** One call of the attention layer: row r of the batch serves users[r], or nobody; it brings
      `length` keys per row, of which the first lengths[r] are the user's own and the rest padding. */
  datatype Step<+T> = Step(users: seq<Option<User>>, table: PageTable, key: Tensor<T>, length: nat,
                           lengths: seq<nat>, positions: seq<int>)

  /** The keys of position p of row r. */
  function KeyOf<T>(key: Tensor<T>, rows: nat, length: nat, heads: nat, r: nat, p: nat): (k: seq<T>)
    requires key.Valid() && key.shape == [rows, length, heads] && r < rows && p < length
    ensures |k| == heads && forall h :: 0 <= h < heads ==> k[h] == At3(key, r, p, h)
  {
    seq(heads, h requires 0 <= h < heads => At3(key, r, p, h))
  }

  ghost predicate Shaped<T>(z: Sizes, step: Step<T>) {
    && z.block > 0
    && |step.users| == |step.table| == |step.lengths| == |step.positions|
    && step.key.Valid() && step.key.shape == [|step.users|, step.length, z.heads]
    && step.length > 0
    && (forall r :: 0 <= r < |step.users| ==> step.lengths[r] <= step.length)
    && (forall r, r' :: 0 <= r < r' < |step.users| && step.users[r].Some? ==> step.users[r] != step.users[r'])
  }

  predicate Serves<T>(step: Step<T>, u: User, r: nat) {
    r < |step.users| && step.users[r] == Some(u)
  }

  ghost predicate Served<T>(step: Step<T>, u: User) {
    exists r: nat :: Serves(step, u, r)
  }

  /** What row r leaves its user with: the first keys of a prefill, or one more key. */
  ghost function RowAfter<T>(z: Sizes, st: map<User, Stored<T>>, step: Step<T>, r: nat): Stored<T>
    requires Shaped(z, step) && r < |step.users| && step.users[r].Some?
    requires step.length == 1 ==> step.users[r].value in st
  {
    var rows := |step.users|;
    if step.length > 1 then
      Stored(step.table[r], seq(step.lengths[r], p requires 0 <= p < step.lengths[r] =>
        KeyOf(step.key, rows, step.length, z.heads, r, p)))
    else
      Stored(step.table[r], st[step.users[r].value].keys + [KeyOf(step.key, rows, 1, z.heads, r, 0)])
  }

  ghost predicate Known<T>(st: map<User, Stored<T>>, step: Step<T>) {
    step.length == 1 ==> forall r :: 0 <= r < |step.users| && step.users[r].Some? ==> step.users[r].value in st
  }

  ghost function RowOf<T>(step: Step<T>, u: User): (r: nat)
    requires Served(step, u)
    ensures Serves(step, u, r)
  {
    var r: nat :| Serves(step, u, r);
    r
  }

  /** The users after a step: the served ones are replaced, the others keep what they had. */
  ghost function After<T>(z: Sizes, st: map<User, Stored<T>>, step: Step<T>): (after: map<User, Stored<T>>)
    requires Shaped(z, step) && Known(st, step)
    ensures forall u :: u in after <==> u in st || Served(step, u)
    ensures forall u | u in st && !Served(step, u) :: after[u] == st[u]
    ensures forall u, r: nat | Serves(step, u, r) :: Served(step, u) && after[u] == RowAfter(z, st, step, r)
  {
    var served := set r: nat | 0 <= r < |step.users| && step.users[r].Some? :: step.users[r].value;
    assert forall u :: u in served <==> Served(step, u) by {
      forall u ensures u in served <==> Served(step, u) {
        if u in served {
          var r: nat :| r < |step.users| && step.users[r].Some? && step.users[r].value == u;
          assert Serves(step, u, r);
        }
        if Served(step, u) {
          var r := RowOf(step, u);
          assert step.users[r].value == u;
        }
      }
    }
    map u | u in st.Keys + served :: if u in served then RowAfter(z, st, step, RowOf(step, u)) else st[u]
  }

  // ---- what a step may ask for ----

  /** Cell c is where a user keeps the keys of offset o of block n. */
  ghost predicate Keeps<T>(z: Sizes, s: Stored<T>, n: nat, o: nat, c: Cell) {
    o < z.block && Pos(n, z.block, o) < |s.keys| && n < |s.pages| && c == Cell(s.pages[n], o)
  }

  /** A prefill fills the padded length of every row; a row's blocks are live pages of nobody but its user. */
  ghost predicate SafePrefill<T>(z: Sizes, st: map<User, Stored<T>>, step: Step<T>)
    requires Shaped(z, step) && Known(st, step)
  {
    var after := After(z, st, step);
    var stretch := StretchOf(step.length, z.block);
    forall r | 0 <= r < |step.users| ::
      && stretch.CoveredBy(step.table[r], z.pages)
      && forall n: nat, u, n': nat | n < stretch.Used() && u in after && z.Live(after[u], n')
             && n' < |after[u].pages| && after[u].pages[n'] == step.table[r][n] ::
           step.users[r] == Some(u) && n == n'
  }

  /** A decode appends each user's key at the end of its own sequence; an idle row writes to a cell
      where nobody keeps a key. */
  ghost predicate SafeDecode<T>(z: Sizes, st: map<User, Stored<T>>, step: Step<T>)
    requires Shaped(z, step) && Known(st, step)
  {
    var after := After(z, st, step);
    forall r | 0 <= r < |step.users| ::
      && HasTarget(step.table[r], step.positions[r], z.pages, z.block)
      && match step.users[r]
         case Some(u) =>
           && u in st && step.positions[r] == |st[u].keys|
           && forall n: nat | z.Live(st[u], n) && n < |st[u].pages| ::
                n < |step.table[r]| && step.table[r][n] == st[u].pages[n]
         case None =>
           forall u, n: nat, o: nat | u in after ::
             !Keeps(z, after[u], n, o, Target(step.table[r], step.positions[r], z.pages, z.block))
  }

  ghost predicate Safe<T>(z: Sizes, st: map<User, Stored<T>>, step: Step<T>) {
    && Shaped(z, step) && Known(st, step)
    && (forall u | u in After(z, st, step) :: z.WellFormed(After(z, st, step)[u]))
    && z.Exclusive(After(z, st, step))
    && if step.length > 1 then SafePrefill(z, st, step) else SafeDecode(z, st, step)
  }

  // ---- prefill ----

  /** `key.transpose(1, 2)[r : r + 1]`: row r of [U, L, H], as [1, H, L]. */
  function RowKeys<T>(key: Tensor<T>, rows: nat, length: nat, heads: nat, r: nat): (fill: Tensor<T>)
    requires key.Valid() && key.shape == [rows, length, heads] && r < rows
    ensures fill.Valid() && fill.shape == [1, heads, length]
    ensures forall h: nat, p: nat | h < heads && p < length :: At3(fill, 0, h, p) == At3(key, r, p, h)
  {
    Build3(1, heads, length, (i: nat, h: nat, p: nat) requires i < 1 && h < heads && p < length => At3(key, r, p, h))
  }

  /** The rows below r are filled: their users, and the users the step does not serve, are held. */
  ghost predicate PrefilledUpTo<T>(z: Sizes, st: map<User, Stored<T>>, step: Step<T>, cache: Tensor<T>, r: nat)
    requires Shaped(z, step) && Known(st, step)
  {
    var after := After(z, st, step);
    && IsCache(cache, z.pages, z.heads, z.block)
    && forall u | u in after && (Served(step, u) ==> exists q: nat :: q < r && Serves(step, u, q)) ::
         z.HoldsUser(cache, after[u])
  }

  /** Filling a row leaves alone every user it does not serve. */
  lemma FillSparesOthers<T>(z: Sizes, st: map<User, Stored<T>>, step: Step<T>, before: Tensor<T>, after: Tensor<T>,
                            fill: Tensor<T>, r: nat, u: User)
    requires Safe(z, st, step) && step.length > 1 && r < |step.users|
    requires IsCache(before, z.pages, z.heads, z.block) && fill.Valid() && fill.shape == [1, z.heads, step.length]
    requires Filled(before, after, z.pages, z.heads, z.block, step.table[r], fill, step.length,
                    StretchOf(step.length, z.block))
    requires u in After(z, st, step) && step.users[r] != Some(u)
    requires z.HoldsUser(before, After(z, st, step)[u])
    ensures z.HoldsUser(after, After(z, st, step)[u])
  {
    var s := After(z, st, step)[u];
    var stretch := StretchOf(step.length, z.block);
    forall n: nat, o: nat, h: nat | o < z.block && h < z.heads && Pos(n, z.block, o) < |s.keys|
      ensures z.HoldsKey(after, s, n, o, h)
    {
      z.LiveBlock(s, n, o);
      assert z.HoldsKey(before, s, n, o, h);
      assert !stretch.Touches(step.table[r], s.pages[n], o);
    }
  }

  /** Filling a row gives its own user its keys. */
  lemma FillServes<T>(z: Sizes, st: map<User, Stored<T>>, step: Step<T>, before: Tensor<T>, after: Tensor<T>,
                      fill: Tensor<T>, r: nat, u: User)
    requires Safe(z, st, step) && step.length > 1 && Serves(step, u, r)
    requires IsCache(before, z.pages, z.heads, z.block)
    requires fill == RowKeys(step.key, |step.users|, step.length, z.heads, r)
    requires Filled(before, after, z.pages, z.heads, z.block, step.table[r], fill, step.length,
                    StretchOf(step.length, z.block))
    ensures z.HoldsUser(after, After(z, st, step)[u])
  {
    var s := After(z, st, step)[u];
    var stretch, row := StretchOf(step.length, z.block), step.table[r];
    assert s == RowAfter(z, st, step, r);
    forall n: nat, o: nat, h: nat | o < z.block && h < z.heads && Pos(n, z.block, o) < |s.keys|
      ensures z.HoldsKey(after, s, n, o, h)
    {
      z.LiveBlock(s, n, o);
      StretchHas(step.length, z.block, n, o);
      assert n < stretch.Used();
      forall m | 0 <= m < stretch.Used() && m != n ensures row[m] != row[n] {
        assert s.pages[n] == row[n];
      }
      assert stretch.Only(row, n);
      assert At3(after, row[n], h, o) == At3(fill, 0, h, Pos(n, z.block, o));
    }
  }

  method Prefill<T>(z: Sizes, ghost st: map<User, Stored<T>>, step: Step<T>, cache: Tensor<T>)
    returns (filled: Tensor<T>)
    requires Safe(z, st, step) && step.length > 1
    requires z.Holds(cache, st)
    ensures z.Holds(filled, After(z, st, step))
  {
    filled := cache;
    for r := 0 to |step.users|
      invariant PrefilledUpTo(z, st, step, filled, r)
    {
      ghost var before := filled;
      var fill := RowKeys(step.key, |step.users|, step.length, z.heads, r);
      filled := FillCache(filled, z.pages, z.heads, z.block, fill, step.length, step.table[r]);
      forall u | u in After(z, st, step) && (Served(step, u) ==> exists q: nat :: q < r + 1 && Serves(step, u, q))
        ensures z.HoldsUser(filled, After(z, st, step)[u])
      {
        if step.users[r] == Some(u) {
          FillServes(z, st, step, before, filled, fill, r, u);
        } else {
          assert Served(step, u) ==> exists q: nat :: q < r && Serves(step, u, q);
          FillSparesOthers(z, st, step, before, filled, fill, r, u);
        }
      }
    }
  }

  // ---- decode ----

  /** The cell a served row writes is the next position of its user. */
  lemma RowTarget<T>(z: Sizes, st: map<User, Stored<T>>, step: Step<T>, r: nat, u: User) returns (n: nat, o: nat)
    requires Safe(z, st, step) && step.length == 1 && Serves(step, u, r)
    ensures o < z.block && Pos(n, z.block, o) == |st[u].keys|
    ensures z.Live(After(z, st, step)[u], n) && n < |After(z, st, step)[u].pages|
    ensures Target(step.table[r], step.positions[r], z.pages, z.block) == Cell(After(z, st, step)[u].pages[n], o)
  {
    var s := After(z, st, step)[u];
    assert s == RowAfter(z, st, step, r);
    var stretch := StretchOf(|st[u].keys|, z.block);
    n, o := stretch.whole, stretch.part;
    z.LiveBlock(s, n, o);
    TargetOfPosition(step.table[r], z.pages, z.block, n, o);
  }

  /** No row writes to a cell kept by a user it does not serve. */
  lemma TargetSpares<T>(z: Sizes, st: map<User, Stored<T>>, step: Step<T>, r: nat, u: User, n: nat, o: nat, c: Cell)
    requires Safe(z, st, step) && step.length == 1 && r < |step.users| && step.users[r] != Some(u)
    requires u in After(z, st, step) && Keeps(z, After(z, st, step)[u], n, o, c)
    ensures Target(step.table[r], step.positions[r], z.pages, z.block) != c
  {
    z.LiveBlock(After(z, st, step)[u], n, o);
    if step.users[r].Some? {
      var v := step.users[r].value;
      assert Serves(step, v, r);
      var n', o' := RowTarget(z, st, step, r, v);
    }
  }

  /** No row at all writes to a cell that held a key before. */
  lemma TargetIsNew<T>(z: Sizes, st: map<User, Stored<T>>, step: Step<T>, r: nat, u: User, n: nat, o: nat, c: Cell)
    requires Safe(z, st, step) && step.length == 1 && r < |step.users|
    requires u in st && u in After(z, st, step) && Keeps(z, After(z, st, step)[u], n, o, c)
    requires Pos(n, z.block, o) < |st[u].keys|
    ensures Target(step.table[r], step.positions[r], z.pages, z.block) != c
  {
    if step.users[r] == Some(u) {
      var s := After(z, st, step)[u];
      assert Serves(step, u, r);
      z.LiveBlock(s, n, o);
      var n', o' := RowTarget(z, st, step, r, u);
      assert s.pages[n] == s.pages[n'] ==> n == n';
    } else {
      TargetSpares(z, st, step, r, u, n, o, c);
    }
  }

  /** The keys a user already had are where they were, and no row writes there. */
  lemma OldKeys<T>(z: Sizes, st: map<User, Stored<T>>, step: Step<T>, u: User, n: nat, o: nat)
    requires Safe(z, st, step) && step.length == 1 && u in st && z.WellFormed(st[u])
    requires o < z.block && Pos(n, z.block, o) < |st[u].keys|
    ensures z.Live(st[u], n) && n < |st[u].pages|
    ensures Keeps(z, After(z, st, step)[u], n, o, Cell(st[u].pages[n], o))
    ensures After(z, st, step)[u].keys[Pos(n, z.block, o)] == st[u].keys[Pos(n, z.block, o)]
    ensures forall r | 0 <= r < |step.users| ::
              Target(step.table[r], step.positions[r], z.pages, z.block) != Cell(st[u].pages[n], o)
  {
    hide After, Sizes.Exclusive;
    z.LiveBlock(st[u], n, o);
    if Served(step, u) {
      assert After(z, st, step)[u] == RowAfter(z, st, step, RowOf(step, u));
    }
    forall r | 0 <= r < |step.users|
      ensures Target(step.table[r], step.positions[r], z.pages, z.block) != Cell(st[u].pages[n], o)
    {
      TargetIsNew(z, st, step, r, u, n, o, Cell(st[u].pages[n], o));
    }
  }

  ghost predicate DecodedBy<T>(z: Sizes, step: Step<T>, before: Tensor<T>, after: Tensor<T>, fill: Tensor<T>) {
    && IsCache(before, z.pages, z.heads, z.block)
    && Updates(step.table, step.positions, fill, z.pages, z.heads, z.block)
    && Updated(before, after, z.pages, z.heads, z.block, step.table, step.positions, fill, |step.table|)
  }

  lemma DecodeKeepsOld<T>(z: Sizes, st: map<User, Stored<T>>, step: Step<T>, before: Tensor<T>, after: Tensor<T>,
                          fill: Tensor<T>, u: User, n: nat, o: nat, h: nat)
    requires Safe(z, st, step) && step.length == 1 && DecodedBy(z, step, before, after, fill)
    requires u in st && z.HoldsUser(before, st[u])
    requires o < z.block && h < z.heads && Pos(n, z.block, o) < |st[u].keys|
    ensures z.HoldsKey(after, After(z, st, step)[u], n, o, h)
  {
    OldKeys(z, st, step, u, n, o);
    z.LiveBlock(After(z, st, step)[u], n, o);
    assert z.HoldsKey(before, st[u], n, o, h);
    assert At3(after, st[u].pages[n], h, o) == At3(before, st[u].pages[n], h, o);
  }

  lemma SamePosition(block: nat, n: nat, o: nat, n': nat, o': nat)
    requires o < block && o' < block && Pos(n, block, o) == Pos(n', block, o')
    ensures n == n' && o == o'
  {
    QuotientRemainder(n, o, block);
    QuotientRemainder(n', o', block);
  }

  lemma DecodeAddsNew<T>(z: Sizes, st: map<User, Stored<T>>, step: Step<T>, before: Tensor<T>, after: Tensor<T>,
                         fill: Tensor<T>, r: nat, u: User, n: nat, o: nat, h: nat)
    requires Safe(z, st, step) && step.length == 1 && DecodedBy(z, step, before, after, fill)
    requires Serves(step, u, r)
    requires fill == SwapFirst(step.key)
    requires o < z.block && h < z.heads && Pos(n, z.block, o) == |st[u].keys|
    ensures z.HoldsKey(after, After(z, st, step)[u], n, o, h)
  {
    var s := After(z, st, step)[u];
    assert s == RowAfter(z, st, step, r);
    z.LiveBlock(s, n, o);
    var n', o' := RowTarget(z, st, step, r, u);
    SamePosition(z.block, n, o, n', o');
    var c := Cell(s.pages[n], o);
    forall v | 0 <= v < |step.users| && v != r
      ensures Target(step.table[v], step.positions[v], z.pages, z.block) != c
    {
      assert step.users[v] != Some(u);
      TargetSpares(z, st, step, v, u, n, o, c);
    }
    assert At3(after, c.page, h, c.offset) == At3(fill, 0, r, h);
    SwapFirstAt(step.key, r, 0, h);
  }

  method Decode<T>(z: Sizes, ghost st: map<User, Stored<T>>, step: Step<T>, cache: Tensor<T>)
    returns (updated: Tensor<T>)
    requires Safe(z, st, step) && step.length == 1
    requires z.Holds(cache, st)
    ensures z.Holds(updated, After(z, st, step))
  {
    var fill := SwapFirst(step.key);
    updated := UpdateCache(cache, z.pages, z.heads, z.block, fill, step.positions, step.table);
    forall u | u in After(z, st, step) ensures z.HoldsUser(updated, After(z, st, step)[u]) {
      var s := After(z, st, step)[u];
      if Served(step, u) {
        assert s == RowAfter(z, st, step, RowOf(step, u));
      }
      forall n: nat, o: nat, h: nat | o < z.block && h < z.heads && Pos(n, z.block, o) < |s.keys|
        ensures z.HoldsKey(updated, s, n, o, h)
      {
        if Pos(n, z.block, o) < |st[u].keys| {
          DecodeKeepsOld(z, st, step, cache, updated, fill, u, n, o, h);
        } else {
          DecodeAddsNew(z, st, step, cache, updated, fill, RowOf(step, u), u, n, o, h);
        }
      }
    }
  }

  // ---- whole runs ----

  ghost predicate RunSafe<T>(z: Sizes, st: map<User, Stored<T>>, steps: seq<Step<T>>)
    decreases |steps|
  {
    steps == [] || (Safe(z, st, steps[0]) && RunSafe(z, After(z, st, steps[0]), steps[1..]))
  }

  ghost function RunAfter<T>(z: Sizes, st: map<User, Stored<T>>, steps: seq<Step<T>>): map<User, Stored<T>>
    requires RunSafe(z, st, steps)
    decreases |steps|
  {
    if steps == [] then st else RunAfter(z, After(z, st, steps[0]), steps[1..])
  }

  /** The key and value caches of one attention layer. */
  class KvCache<T> {
    const z: Sizes
    var k: Tensor<T>
    var v: Tensor<T>

    constructor (z: Sizes, zero: T)
      requires z.block > 0
      ensures this.z == z && z.Holds(k, map[]) && z.Holds(v, map[])
    {
      this.z := z;
      var zeros := Build3(z.pages, z.heads, z.block, (q: nat, h: nat, o: nat) => zero);
      k, v := zeros, zeros;
    }

    /** The cache update of the layer: a prefill when the rows bring more than one token, else a decode. */
    method Handle(ghost ks: map<User, Stored<T>>, ghost vs: map<User, Stored<T>>, key: Step<T>, value: Step<T>)
      requires Safe(z, ks, key) && Safe(z, vs, value) && key.length == value.length
      requires z.Holds(k, ks) && z.Holds(v, vs)
      modifies this
      ensures z.Holds(k, After(z, ks, key)) && z.Holds(v, After(z, vs, value))
    {
      if key.length == 1 {
        k := Decode(z, ks, key, k);
        v := Decode(z, vs, value, v);
      } else {
        k := Prefill(z, ks, key, k);
        v := Prefill(z, vs, value, v);
      }
    }

    /** Any run of prefills and decodes leaves the caches holding what the steps spell out for each user. */
    method Run(ghost ks: map<User, Stored<T>>, ghost vs: map<User, Stored<T>>, keys: seq<Step<T>>, values: seq<Step<T>>)
      requires |keys| == |values| && forall i :: 0 <= i < |keys| ==> keys[i].length == values[i].length
      requires RunSafe(z, ks, keys) && RunSafe(z, vs, values)
      requires z.Holds(k, ks) && z.Holds(v, vs)
      modifies this
      ensures z.Holds(k, RunAfter(z, ks, keys)) && z.Holds(v, RunAfter(z, vs, values))
    {
      ghost var kNow, vNow := ks, vs;
      for i := 0 to |keys|
        invariant RunSafe(z, kNow, keys[i..]) && RunAfter(z, kNow, keys[i..]) == RunAfter(z, ks, keys)
        invariant RunSafe(z, vNow, values[i..]) && RunAfter(z, vNow, values[i..]) == RunAfter(z, vs, values)
        invariant z.Holds(k, kNow) && z.Holds(v, vNow)
      {
        assert keys[i..][1..] == keys[i + 1..] && values[i..][1..] == values[i + 1..];
        Handle(kNow, vNow, keys[i], values[i]);
        kNow, vNow := After(z, kNow, keys[i]), After(z, vNow, values[i]);
      }
    }
  }

  /** A user's own sequence only grows in decodes, by the key its row brings; nobody else's changes. */
  lemma DecodeAppends<T>(z: Sizes, st: map<User, Stored<T>>, step: Step<T>, u: User)
    requires Safe(z, st, step) && step.length == 1 && u in st
    ensures After(z, st, step)[u].keys == st[u].keys
            + (if Served(step, u) then [KeyOf(step.key, |step.users|, 1, z.heads, RowOf(step, u), 0)] else [])
  {
    if Served(step, u) {
      assert After(z, st, step)[u] == RowAfter(z, st, step, RowOf(step, u));
    }
  }

  // ---- what the users and the cache are, without the names above ----

  /** A prefill gives the user of row r that row's first keys, whatever the user had. */
  lemma PrefillStores<T>(z: Sizes, st: map<User, Stored<T>>, step: Step<T>, u: User, r: nat)
    requires Safe(z, st, step) && step.length > 1 && r < |step.users| && step.users[r] == Some(u)
    ensures u in After(z, st, step) && After(z, st, step)[u].pages == step.table[r]
    ensures var keys := After(z, st, step)[u].keys;
            && |keys| == step.lengths[r]
            && forall p: nat, h: nat | p < |keys| && h < z.heads ::
                 |keys[p]| == z.heads && keys[p][h] == At3(step.key, r, p, h)
  {
    assert Serves(step, u, r);
    assert After(z, st, step)[u] == RowAfter(z, st, step, r);
  }

  /** A decode appends the one key of row r to what its user had. */
  lemma DecodeStores<T>(z: Sizes, st: map<User, Stored<T>>, step: Step<T>, u: User, r: nat)
    requires Safe(z, st, step) && step.length == 1 && r < |step.users| && step.users[r] == Some(u)
    ensures u in st && u in After(z, st, step) && After(z, st, step)[u].pages == step.table[r]
    ensures var had, keys := st[u].keys, After(z, st, step)[u].keys;
            && |keys| == |had| + 1 && keys[..|had|] == had && |keys[|had|]| == z.heads
            && forall h: nat | h < z.heads :: keys[|had|][h] == At3(step.key, r, 0, h)
  {
    assert Serves(step, u, r);
    assert After(z, st, step)[u] == RowAfter(z, st, step, r);
  }

  lemma ShapedAndKnown<T>(z: Sizes, st: map<User, Stored<T>>, step: Step<T>)
    requires Safe(z, st, step)
    ensures Shaped(z, step) && Known(st, step)
  {}

  /** Nothing else changes, and nobody else appears. */
  lemma UnservedKept<T>(z: Sizes, st: map<User, Stored<T>>, step: Step<T>, u: User)
    requires Safe(z, st, step) && forall r | 0 <= r < |step.users| :: step.users[r] != Some(u)
    ensures u in After(z, st, step) <==> u in st
    ensures u in st ==> After(z, st, step)[u] == st[u]
  {
    hide Safe;
    ShapedAndKnown(z, st, step);
    assert !Served(step, u);
  }

  /** A run takes its steps one after the other. */
  lemma {:induction false} RunAfterLast<T>(z: Sizes, st: map<User, Stored<T>>, steps: seq<Step<T>>, last: Step<T>)
    requires RunSafe(z, st, steps + [last])
    ensures RunAfter(z, st, []) == st
    ensures RunSafe(z, st, steps) && Safe(z, RunAfter(z, st, steps), last)
    ensures RunAfter(z, st, steps + [last]) == After(z, RunAfter(z, st, steps), last)
    decreases |steps|
  {
    hide Safe, After;
    if steps != [] {
      ShapedAndKnown(z, st, steps[0]);
      assert (steps + [last])[1..] == steps[1..] + [last] && (steps + [last])[0] == steps[0];
      RunAfterLast(z, After(z, st, steps[0]), steps[1..], last);
    } else {
      assert steps + [last] == [last] && [last][1..] == [];
    }
  }

  /** In a cache that holds its users, position p of a user is offset p mod block of the user's page p / block. */
  lemma HeldAt<T>(z: Sizes, cache: Tensor<T>, st: map<User, Stored<T>>, u: User, p: nat, h: nat, n: nat)
    requires z.Holds(cache, st) && u in st && p < |st[u].keys| && h < z.heads
    requires z.block > 0 && n == p / z.block
    ensures |st[u].keys[p]| == z.heads && n < |st[u].pages| && st[u].pages[n] < z.pages
    ensures At3(cache, st[u].pages[n], h, p % z.block) == st[u].keys[p][h]
  {
    assert z.HoldsUser(cache, st[u]);
    var r := StretchOf(p, z.block);
    assert z.HoldsKey(cache, st[u], r.whole, r.part, h);
  }

  // ---- reading back ----

  /** Row r of the page table lists the live pages of the user it serves. */
  ghost predicate Lists<T>(z: Sizes, s: Stored<T>, row: seq<nat>) {
    && (forall n :: 0 <= n < |row| ==> row[n] < z.pages)
    && forall n: nat | z.Live(s, n) && n < |s.pages| :: n < |row| && row[n] == s.pages[n]
  }

  /** A gathered row spells out a user's sequence, position by position. */
  ghost predicate Spells<T>(z: Sizes, row: Tensor<T>, length: nat, s: Stored<T>) {
    && row.Valid() && row.shape == [z.heads, length]
    && |s.keys| <= length
    && forall p: nat, h: nat | p < |s.keys| && h < z.heads :: |s.keys[p]| == z.heads && At2(row, h, p) == s.keys[p][h]
  }

  lemma GatheredRow<T>(z: Sizes, cache: Tensor<T>, s: Stored<T>, row: seq<nat>, length: nat)
    requires z.HoldsUser(cache, s) && Lists(z, s, row) && length == |row| * z.block
    ensures Spells(z, GatherRow(cache, z.pages, z.heads, z.block, row, length), length, s)
    ensures |s.keys| <= length
    ensures forall p: nat, h: nat | p < |s.keys| && h < z.heads ::
              |s.keys[p]| == z.heads
              && At2(GatherRow(cache, z.pages, z.heads, z.block, row, length), h, p) == s.keys[p][h]
  {
    var gathered := GatherRow(cache, z.pages, z.heads, z.block, row, length);
    if s.keys != [] {
      var r := StretchOf(|s.keys| - 1, z.block);
      z.LiveBlock(s, r.whole, r.part);
      DigitBound(r.whole, |row|, r.part, z.block);
    }
    forall p: nat, h: nat | p < |s.keys| && h < z.heads
      ensures |s.keys[p]| == z.heads && At2(gathered, h, p) == s.keys[p][h]
    {
      var r := StretchOf(p, z.block);
      z.LiveBlock(s, r.whole, r.part);
      assert z.HoldsKey(cache, s, r.whole, r.part, h);
      GatherRowAt(cache, z.pages, z.heads, z.block, row, length, r.whole, h, r.part);
    }
  }

  /** The causal mask leaves exactly a user's own positions open. */
  ghost predicate Opens<T>(mask: seq<bool>, length: nat, s: Stored<T>) {
    |mask| == length && forall p :: 0 <= p < length ==> (!mask[p] <==> p < |s.keys|)
  }

  /** `causal_mask[i, current + 1:] = -inf`. */
  function Closed(length: nat, current: nat): (mask: seq<bool>)
    ensures |mask| == length && forall p :: 0 <= p < length ==> mask[p] == (p >= current + 1)
  {
    seq(length, p => p >= current + 1)
  }

  /** The current position is the last one of a sequence, or lies beyond a row that the sequence fills. */
  predicate ReadsToEnd<T>(current: nat, length: nat, s: Stored<T>) {
    current + 1 == |s.keys| || (current >= length && |s.keys| == length)
  }

  /** A sequence that fits is opened exactly when the current position is its last one, or lies beyond a full row. */
  lemma ClosedOpens<T>(length: nat, current: nat, s: Stored<T>)
    requires |s.keys| <= length
    ensures Opens(Closed(length, current), length, s) <==> ReadsToEnd(current, length, s)
  {
    var n := |s.keys|;
    if Opens(Closed(length, current), length, s) {
      if n < length {
        assert Closed(length, current)[n];
      }
      if 0 < n {
        assert !Closed(length, current)[n - 1];
      }
      if current < length {
        assert !Closed(length, current)[current];
      }
    }
  }

  /** After a decode, the position a row has just written is its user's last one. */
  lemma DecodeIsLast<T>(z: Sizes, st: map<User, Stored<T>>, step: Step<T>, r: nat, u: User)
    requires Safe(z, st, step) && step.length == 1 && Serves(step, u, r)
    ensures u in After(z, st, step) && step.positions[r] + 1 == |After(z, st, step)[u].keys|
  {
    assert After(z, st, step)[u] == RowAfter(z, st, step, r);
  }

  /** The loop of the decode attention: each row's pages, laid end to end, spell its user's
      sequence, and the mask, closed behind the current position, opens that sequence and nothing
      else. */
  method GatherAll<T>(z: Sizes, cache: Tensor<T>, table: PageTable, width: nat, length: nat, current: seq<nat>,
                      ghost st: map<User, Stored<T>>, ghost users: seq<Option<User>>)
    returns (rows: seq<Tensor<T>>, masks: seq<seq<bool>>)
    requires z.Holds(cache, st) && |users| == |table| == |current| && length == width * z.block
    requires forall r :: 0 <= r < |table| ==>
               |table[r]| == width && forall n :: 0 <= n < width ==> table[r][n] < z.pages
    requires forall r :: 0 <= r < |table| && users[r].Some? ==>
               users[r].value in st && Lists(z, st[users[r].value], table[r])
    ensures |rows| == |masks| == |table|
    ensures forall r :: 0 <= r < |rows| ==>
              rows[r] == GatherRow(cache, z.pages, z.heads, z.block, table[r], length)
              && masks[r] == Closed(length, current[r])
    ensures forall r :: 0 <= r < |rows| && users[r].Some? ==> Spells(z, rows[r], length, st[users[r].value])
    ensures forall r :: 0 <= r < |rows| && users[r].Some? ==>
              (Opens(masks[r], length, st[users[r].value]) <==> ReadsToEnd(current[r], length, st[users[r].value]))
  {
    hide GatherRow, Closed, Opens, ReadsToEnd;
    rows, masks := [], [];
    for i := 0 to |table|
      invariant |rows| == |masks| == i
      invariant forall r :: 0 <= r < i ==>
                  rows[r] == GatherRow(cache, z.pages, z.heads, z.block, table[r], length)
                  && masks[r] == Closed(length, current[r])
      invariant forall r :: 0 <= r < i && users[r].Some? ==> Spells(z, rows[r], length, st[users[r].value])
    {
      var gathered := GatherRow(cache, z.pages, z.heads, z.block, table[i], length);
      if users[i].Some? {
        GatheredRow(z, cache, st[users[i].value], table[i], length);
      }
      rows := rows + [gathered];
      masks := masks + [Closed(length, current[i])];
    }
    forall r | 0 <= r < |table| && users[r].Some?
      ensures Opens(masks[r], length, st[users[r].value]) <==> ReadsToEnd(current[r], length, st[users[r].value])
    {
      ClosedOpens(length, current[r], st[users[r].value]);
    }
  }
}
