/** CPU semantics of the paged cache operators: a cache is [pages, heads, block] cells. */
module PagedOps {
  import opened Tensors

  type PageTable = seq<seq<nat>>

  /** Position of offset o in block n. */
  function Pos(n: nat, block: nat, o: nat): nat {
    n * block + o
  }

  predicate IsCache<T>(cache: Tensor<T>, pages: nat, heads: nat, block: nat) {
    cache.Valid() && cache.shape == [pages, heads, block] && block > 0
  }

  /** A filled stretch of a row: `whole` blocks, then `part` offsets of the next one. */
  datatype Stretch = Stretch(whole: nat, part: nat) {
    predicate Has(n: nat, o: nat) {
      n < whole || (n == whole && o < part)
    }

    function Used(): nat {
      if part > 0 then whole + 1 else whole
    }

    /** Every written block has a page. */
    predicate CoveredBy(row: seq<nat>, pages: nat) {
      Used() <= |row| && forall n :: 0 <= n < Used() ==> row[n] < pages
    }

    /** No other written block of the row uses the page of block n. */
    predicate Only(row: seq<nat>, n: nat)
      requires Used() <= |row| && n < |row|
    {
      forall m :: 0 <= m < Used() && m != n ==> row[m] != row[n]
    }

    /** Cell (page, ., o) is written. */
    ghost predicate Touches(row: seq<nat>, page: nat, o: nat)
      requires Used() <= |row|
    {
      exists n: nat :: n < Used() && Has(n, o) && row[n] == page
    }
  }

  function StretchOf(length: nat, block: nat): (r: Stretch)
    requires block > 0
    ensures r.part < block && length == Pos(r.whole, block, r.part)
  {
    Stretch(length / block, length % block)
  }

  /** The stretch of a length holds exactly the positions below it. */
  lemma StretchHas(length: nat, block: nat, n: nat, o: nat)
    requires block > 0 && o < block
    ensures StretchOf(length, block).Has(n, o) <==> Pos(n, block, o) < length
  {
    var r := StretchOf(length, block);
    assert n + 1 <= r.whole ==> (n + 1) * block <= r.whole * block;
    assert r.whole + 1 <= n ==> (r.whole + 1) * block <= n * block;
  }

  // ---- paged_fill_cache ----

  lemma BlockSizes(heads: nat, n: nat, block: nat)
    ensures Size([1, heads, n * block]) == Size([1, heads, n, block])
    ensures Size([n, heads, 1, block]) == Size([n, heads, block])
  {
    Size3(1, heads, n * block); Size4(1, heads, n, block); RegroupSize(heads, n, block);
    Size4(n, heads, 1, block); Size3(n, heads, block);
  }

  lemma TransposeIsPermutation()
    ensures IsPermutation([2, 1, 0, 3])
  {
    var p: seq<nat> := [2, 1, 0, 3];
    assert p[2] == 0 && p[1] == 1 && p[0] == 2 && p[3] == 3;
  }

  /** `reshape(1, H, N, block).transpose(0, 2).reshape(N, H, block)` of [1, H, N * block]. */
  function Blocks<T>(fill: Tensor<T>, heads: nat, n: nat, block: nat): (r: Tensor<T>)
    requires fill.Valid() && fill.shape == [1, heads, n * block]
    ensures r.Valid() && r.shape == [n, heads, block]
  {
    BlockSizes(heads, n, block);
    TransposeIsPermutation();
    assert Gather([1, heads, n, block], [2, 1, 0, 3]) == [n, heads, 1, block];
    View(Permute(View(fill, [1, heads, n, block]), [2, 1, 0, 3]), [n, heads, block])
  }

  /** Entry (i, h, o) of the blocks is the head's row at position i * block + o. */
  lemma BlocksAt<T>(fill: Tensor<T>, heads: nat, n: nat, block: nat, i: nat, h: nat, o: nat)
    requires fill.Valid() && fill.shape == [1, heads, n * block]
    requires i < n && h < heads && o < block
    ensures Pos(i, block, o) < n * block
    ensures At3(Blocks(fill, heads, n, block), i, h, o) == At3(fill, 0, h, Pos(i, block, o))
  {
    DigitBound(i, n, o, block);
    TransposeIsPermutation();
    MergeLast4(1, heads, n, block, 0, h, i, o, n * block, Pos(i, block, o));
    var four := View(fill, [1, heads, n, block]);
    assert At4(four, 0, h, i, o) == At3(fill, 0, h, Pos(i, block, o)) by {
      ViewAt(fill, [1, heads, n, block], [0, h, Pos(i, block, o)], [0, h, i, o]);
    }
    PermuteAt(four, [2, 1, 0, 3], [0, h, i, o]);
    assert Gather([0, h, i, o], [2, 1, 0, 3]) == [i, h, 0, o];
    assert Gather(four.shape, [2, 1, 0, 3]) == [n, heads, 1, block];
    DropThird4(n, heads, block, i, h, o);
  }

  /** `cache[page] = value[i]` for one block. */
  function WriteBlock<T>(cache: Tensor<T>, pages: nat, heads: nat, block: nat, page: nat, value: Tensor<T>,
                         i: nat): (r: Tensor<T>)
    requires IsCache(cache, pages, heads, block) && page < pages
    requires value.Valid() && |value.shape| == 3 && i < value.shape[0] && value.shape[1] == heads
             && value.shape[2] == block
    ensures IsCache(r, pages, heads, block)
    ensures forall q: nat, h: nat, o: nat | q < pages && h < heads && o < block ::
              At3(r, q, h, o) == if q == page then At3(value, i, h, o) else At3(cache, q, h, o)
  {
    Build3(pages, heads, block, (q: nat, h: nat, o: nat) requires q < pages && h < heads && o < block =>
      if q == page then At3(value, i, h, o) else At3(cache, q, h, o))
  }

  /** `fill[:, :, from:to]`. */
  function Slice<T>(fill: Tensor<T>, heads: nat, length: nat, from: nat, to: nat): (r: Tensor<T>)
    requires fill.Valid() && fill.shape == [1, heads, length] && from <= to <= length
    ensures r.Valid() && r.shape == [1, heads, to - from]
    ensures forall h: nat, p: nat | h < heads && p < to - from :: At3(r, 0, h, p) == At3(fill, 0, h, from + p)
  {
    Build3(1, heads, to - from, (i: nat, h: nat, p: nat) requires i < 1 && h < heads && p < to - from =>
      At3(fill, 0, h, from + p))
  }

  /** What filling a stretch of a row does to the cache: a block whose page is used once gets its keys,
      and no other cell changes. */
  ghost predicate Filled<T>(before: Tensor<T>, after: Tensor<T>, pages: nat, heads: nat, block: nat,
                            row: seq<nat>, fill: Tensor<T>, length: nat, r: Stretch)
    requires IsCache(before, pages, heads, block)
    requires fill.Valid() && fill.shape == [1, heads, length] && r.CoveredBy(row, pages)
  {
    && IsCache(after, pages, heads, block)
    && (forall n: nat, o: nat | n < r.Used() && r.Has(n, o) && o < block :: Pos(n, block, o) < length)
    && (forall n: nat, o: nat, h: nat | n < r.Used() && r.Has(n, o) && o < block && h < heads && r.Only(row, n) ::
          At3(after, row[n], h, o) == At3(fill, 0, h, Pos(n, block, o)))
    && (forall page: nat, h: nat, o: nat | page < pages && h < heads && o < block && !r.Touches(row, page, o) ::
          At3(after, page, h, o) == At3(before, page, h, o))
  }

  /** What the shorter stretch touches, and the new cells, the longer one touches. */
  lemma StepTouches(row: seq<nat>, n: nat, upTo: nat, block: nat, next: Stretch, page: nat, o: nat)
    requires 0 < upTo <= block && next == if upTo == block then Stretch(n + 1, 0) else Stretch(n, upTo)
    requires next.Used() <= |row|
    ensures n < |row| && Stretch(n, 0).Used() <= |row|
    ensures page == row[n] && o < upTo ==> next.Touches(row, page, o)
    ensures Stretch(n, 0).Touches(row, page, o) ==> next.Touches(row, page, o)
  {
    if page == row[n] && o < upTo {
      assert next.Has(n, o);
    }
    if Stretch(n, 0).Touches(row, page, o) {
      var m: nat :| m < n && Stretch(n, 0).Has(m, o) && row[m] == page;
      assert next.Has(m, o);
    }
  }

  /** Writing one more block, or the part of the last block, lengthens the filled stretch. */
  lemma FilledStep<T>(before: Tensor<T>, mid: Tensor<T>, after: Tensor<T>, pages: nat, heads: nat, block: nat,
                      row: seq<nat>, fill: Tensor<T>, length: nat, n: nat, upTo: nat, next: Stretch)
    requires IsCache(before, pages, heads, block)
    requires fill.Valid() && fill.shape == [1, heads, length] && next.CoveredBy(row, pages)
    requires 0 < upTo <= block && next == if upTo == block then Stretch(n + 1, 0) else Stretch(n, upTo)
    requires Filled(before, mid, pages, heads, block, row, fill, length, Stretch(n, 0))
    requires IsCache(after, pages, heads, block)
    requires forall o: nat | o < upTo :: Pos(n, block, o) < length
    requires forall q: nat, h: nat, o: nat | q < pages && h < heads && o < block ::
               At3(after, q, h, o) == if q == row[n] && o < upTo then At3(fill, 0, h, Pos(n, block, o))
                 else At3(mid, q, h, o)
    ensures Filled(before, after, pages, heads, block, row, fill, length, next)
  {
    var r := Stretch(n, 0);
    forall i: nat, o: nat | i < next.Used() && next.Has(i, o) && o < block ensures Pos(i, block, o) < length {
      assert i < n ==> r.Has(i, o);
    }
    forall i: nat, o: nat, h: nat | i < next.Used() && next.Has(i, o) && o < block && h < heads && next.Only(row, i)
      ensures At3(after, row[i], h, o) == At3(fill, 0, h, Pos(i, block, o))
    {
      if i < n {
        assert r.Has(i, o) && row[n] != row[i] && r.Only(row, i);
      }
    }
    forall page: nat, h: nat, o: nat | page < pages && h < heads && o < block && !next.Touches(row, page, o)
      ensures At3(after, page, h, o) == At3(before, page, h, o)
    {
      StepTouches(row, n, upTo, block, next, page, o);
    }
  }

  /** The whole blocks of a fill. */
  method FillWhole<T>(cache: Tensor<T>, pages: nat, heads: nat, block: nat, fill: Tensor<T>, length: nat, row: seq<nat>,
                      first: Tensor<T>, whole: nat)
    returns (after: Tensor<T>)
    requires IsCache(cache, pages, heads, block)
    requires fill.Valid() && fill.shape == [1, heads, length] && whole * block <= length
    requires Stretch(whole, 0).CoveredBy(row, pages)
    requires first.Valid() && first.shape == [1, heads, whole * block]
    requires forall h: nat, p: nat | h < heads && p < whole * block :: At3(first, 0, h, p) == At3(fill, 0, h, p)
    ensures Filled(cache, after, pages, heads, block, row, fill, length, Stretch(whole, 0))
  {
    after := cache;
    var blocks := Blocks(first, heads, whole, block);
    for n := 0 to whole
      invariant Filled(cache, after, pages, heads, block, row, fill, length, Stretch(n, 0))
    {
      ghost var mid := after;
      after := WriteBlock(after, pages, heads, block, row[n], blocks, n);
      forall o: nat | o < block ensures Pos(n, block, o) < length {
        DigitBound(n, whole, o, block);
      }
      forall h: nat, o: nat | h < heads && o < block
        ensures At3(blocks, n, h, o) == At3(fill, 0, h, Pos(n, block, o))
      {
        BlocksAt(first, heads, whole, block, n, h, o);
      }
      FilledStep(cache, mid, after, pages, heads, block, row, fill, length, n, block, Stretch(n + 1, 0));
    }
  }

  /** `paged_fill_cache` for one row of the page table: whole blocks first, then the part of the last one. */
  method FillCache<T>(cache: Tensor<T>, pages: nat, heads: nat, block: nat, fill: Tensor<T>, length: nat, row: seq<nat>)
    returns (after: Tensor<T>)
    requires IsCache(cache, pages, heads, block)
    requires fill.Valid() && fill.shape == [1, heads, length]
    requires StretchOf(length, block).CoveredBy(row, pages)
    ensures Filled(cache, after, pages, heads, block, row, fill, length, StretchOf(length, block))
  {
    var whole, part := length / block, length % block;
    assert length == whole * block + part;
    after := cache;
    if whole > 0 {
      var first := if part > 0 then Slice(fill, heads, length, 0, length - part) else fill;
      after := FillWhole(cache, pages, heads, block, fill, length, row, first, whole);
    }
    if part > 0 {
      var tail := Slice(fill, heads, length, length - part, length);
      var page := row[whole];
      var before := after;
      after := Build3(pages, heads, block, (q: nat, h: nat, o: nat) requires q < pages && h < heads && o < block =>
        if q == page && o < part then At3(tail, 0, h, o) else At3(before, q, h, o));
      FilledStep(cache, before, after, pages, heads, block, row, fill, length, whole, part, Stretch(whole, part));
    }
  }

  /** A row covers a length when it has a page for every block that holds one of its positions. */
  lemma CoveredWhen(row: seq<nat>, pages: nat, length: nat, block: nat)
    requires block > 0 && forall n: nat | Pos(n, block, 0) < length :: n < |row| && row[n] < pages
    ensures StretchOf(length, block).CoveredBy(row, pages)
  {
    var r := StretchOf(length, block);
    forall n: nat | n < r.Used() ensures n < |row| && row[n] < pages {
      StretchHas(length, block, n, 0);
    }
    if r.Used() > 0 {
      StretchHas(length, block, r.Used() - 1, 0);
    }
  }

  lemma PosOf(p: nat, block: nat, n: nat)
    requires block > 0 && n == p / block
    ensures p == Pos(n, block, p % block)
  {}

  lemma OwnPage(row: seq<nat>, pages: nat, length: nat, block: nat, o: nat, n: nat)
    requires o < block && StretchOf(length, block).CoveredBy(row, pages) && Pos(n, block, o) < length
    requires forall m: nat | m < |row| && m != n && Pos(m, block, 0) < length :: n < |row| && row[m] != row[n]
    ensures var r := StretchOf(length, block);
            r.Used() <= |row| && n < r.Used() && r.Has(n, o) && row[n] < pages && r.Only(row, n)
  {
    var r := StretchOf(length, block);
    StretchHas(length, block, n, o);
    forall m | 0 <= m < r.Used() && m != n ensures row[m] != row[n] {
      StretchHas(length, block, m, 0);
    }
  }

  /** Position p of the fill lies at offset p mod block of the row's page p / block, if no other block has that page. */
  lemma FilledAt<T>(before: Tensor<T>, after: Tensor<T>, pages: nat, heads: nat, block: nat, row: seq<nat>,
                    fill: Tensor<T>, length: nat, p: nat, h: nat, n: nat)
    requires IsCache(before, pages, heads, block) && fill.Valid() && fill.shape == [1, heads, length]
    requires StretchOf(length, block).CoveredBy(row, pages)
    requires Filled(before, after, pages, heads, block, row, fill, length, StretchOf(length, block))
    requires p < length && h < heads && n == p / block
    requires forall m: nat | m < |row| && m != n && Pos(m, block, 0) < length :: n < |row| && row[m] != row[n]
    ensures n < |row| && row[n] < pages && At3(after, row[n], h, p % block) == At3(fill, 0, h, p)
  {
    hide Pos, Stretch.Only, Stretch.CoveredBy;
    PosOf(p, block, n);
    OwnPage(row, pages, length, block, p % block, n);
  }

  /** A cell where no position of the fill goes keeps its value. */
  lemma FilledElse<T>(before: Tensor<T>, after: Tensor<T>, pages: nat, heads: nat, block: nat, row: seq<nat>,
                      fill: Tensor<T>, length: nat, page: nat, h: nat, o: nat)
    requires IsCache(before, pages, heads, block) && fill.Valid() && fill.shape == [1, heads, length]
    requires StretchOf(length, block).CoveredBy(row, pages)
    requires Filled(before, after, pages, heads, block, row, fill, length, StretchOf(length, block))
    requires page < pages && h < heads && o < block
    requires forall n: nat | n < |row| && Pos(n, block, o) < length :: row[n] != page
    ensures At3(after, page, h, o) == At3(before, page, h, o)
  {
    var r := StretchOf(length, block);
    forall n: nat | n < r.Used() && r.Has(n, o) ensures row[n] != page {
      StretchHas(length, block, n, o);
    }
    assert !r.Touches(row, page, o);
  }

  // ---- paged_update_cache ----

  datatype Cell = Cell(page: nat, offset: nat)

  /** The column of the page table for a position: floor division, and a negative index counts from the end. */
  function Column(position: int, block: nat, width: nat): int
    requires block > 0
  {
    var column := position / block;
    if column < 0 then column + width else column
  }

  predicate HasTarget(row: seq<nat>, position: int, pages: nat, block: nat)
    requires block > 0
  {
    0 <= Column(position, block, |row|) < |row| && row[Column(position, block, |row|)] < pages
  }

  /** The cell a row's update goes to. */
  function Target(row: seq<nat>, position: int, pages: nat, block: nat): (c: Cell)
    requires block > 0 && HasTarget(row, position, pages, block)
    ensures c.page < pages && c.offset < block
  {
    Cell(row[Column(position, block, |row|)], position % block)
  }

  lemma TargetOfPosition(row: seq<nat>, pages: nat, block: nat, n: nat, o: nat)
    requires o < block && n < |row| && row[n] < pages
    ensures HasTarget(row, Pos(n, block, o), pages, block)
    ensures Target(row, Pos(n, block, o), pages, block) == Cell(row[n], o)
  {
    QuotientRemainder(n, o, block);
  }

  lemma TimesGrows(a: int, b: int, block: nat)
    requires a < b
    ensures a * block + block <= b * block
  {
    assert (a + 1) * block <= b * block;
  }

  lemma SameQuotient(d: int, q: int, block: nat, m: int, o: int)
    requires 0 <= m < block && 0 <= o < block && d * block + m == q * block + o
    ensures d == q && m == o
  {
    if d < q {
      TimesGrows(d, q, block);
    } else if q < d {
      TimesGrows(q, d, block);
    }
  }

  /** A negative position counts its blocks from the end of the row. */
  lemma TargetOfNegative(row: seq<nat>, position: int, pages: nat, block: nat, n: nat, o: nat)
    requires o < block && n < |row| && row[n] < pages && position == (n - |row|) * block + o
    ensures HasTarget(row, position, pages, block)
    ensures Target(row, position, pages, block) == Cell(row[n], o)
  {
    var d, m := position / block, position % block;
    assert position == d * block + m;
    SameQuotient(d, n - |row|, block, m, o);
  }

  ghost predicate Updates<T>(table: PageTable, positions: seq<int>, fill: Tensor<T>, pages: nat, heads: nat,
                             block: nat) {
    && block > 0 && |table| == |positions|
    && fill.Valid() && |fill.shape| == 3 && fill.shape[0] == 1 && fill.shape[1] == |positions| && heads <= fill.shape[2]
    && forall u :: 0 <= u < |table| ==> HasTarget(table[u], positions[u], pages, block)
  }

  /** What one update per row does to the cache, of a fill whose first heads are the cache's: a cell
      that is the target of one row gets that row's key, and a cell that is nobody's target does not
      change. */
  ghost predicate Updated<T>(before: Tensor<T>, after: Tensor<T>, pages: nat, heads: nat, block: nat,
                             table: PageTable, positions: seq<int>, fill: Tensor<T>, n: nat)
    requires IsCache(before, pages, heads, block) && Updates(table, positions, fill, pages, heads, block)
    requires n <= |table|
  {
    && IsCache(after, pages, heads, block)
    && (forall u: nat, h: nat | u < n && h < heads
          && (forall v :: 0 <= v < n && v != u ==>
                Target(table[v], positions[v], pages, block) != Target(table[u], positions[u], pages, block)) ::
          var c := Target(table[u], positions[u], pages, block);
          At3(after, c.page, h, c.offset) == At3(fill, 0, u, h))
    && (forall page: nat, h: nat, o: nat | page < pages && h < heads && o < block
          && (forall v :: 0 <= v < n ==> Target(table[v], positions[v], pages, block) != Cell(page, o)) ::
          At3(after, page, h, o) == At3(before, page, h, o))
  }

  /** `paged_update_cache`: one key per row, at the row's own position. */
  method UpdateCache<T>(cache: Tensor<T>, pages: nat, heads: nat, block: nat,
                        fill: Tensor<T>, positions: seq<int>, table: PageTable) returns (after: Tensor<T>)
    requires IsCache(cache, pages, heads, block) && Updates(table, positions, fill, pages, heads, block)
    ensures Updated(cache, after, pages, heads, block, table, positions, fill, |table|)
  {
    after := cache;
    for u := 0 to |table|
      invariant Updated(cache, after, pages, heads, block, table, positions, fill, u)
    {
      var c := Target(table[u], positions[u], pages, block);
      var before := after;
      after := Build3(pages, heads, block, (q: nat, h: nat, o: nat) requires q < pages && h < heads && o < block =>
        if q == c.page && o == c.offset then At3(fill, 0, u, h) else At3(before, q, h, o));
    }
  }

  // ---- the gather of paged_scaled_dot_product_attention_decode ----

  lemma SwapFirstIsPermutation()
    ensures IsPermutation([1, 0, 2])
  {
    var p: seq<nat> := [1, 0, 2];
    assert p[1] == 0 && p[0] == 1 && p[2] == 2;
  }

  /** `key[row]`. */
  function RowBlocks<T>(cache: Tensor<T>, pages: nat, heads: nat, block: nat, row: seq<nat>): (r: Tensor<T>)
    requires IsCache(cache, pages, heads, block) && forall n :: 0 <= n < |row| ==> row[n] < pages
    ensures r.Valid() && r.shape == [|row|, heads, block]
    ensures forall n: nat, h: nat, o: nat | n < |row| && h < heads && o < block ::
            At3(r, n, h, o) == At3(cache, row[n], h, o)
  {
    Build3(|row|, heads, block, (n: nat, h: nat, o: nat) requires n < |row| && h < heads && o < block =>
      At3(cache, row[n], h, o))
  }

  /** `transpose(0, 1)`. */
  function SwapFirst<T>(t: Tensor<T>): (r: Tensor<T>)
    requires t.Valid() && |t.shape| == 3
    ensures r.Valid() && r.shape == [t.shape[1], t.shape[0], t.shape[2]]
  {
    SwapFirstIsPermutation();
    Permute(t, [1, 0, 2])
  }

  lemma SwapFirstAt<T>(t: Tensor<T>, i: nat, j: nat, k: nat)
    requires t.Valid() && In3(t.shape, i, j, k)
    ensures At3(SwapFirst(t), j, i, k) == At3(t, i, j, k)
  {
    SwapFirstIsPermutation();
    PermuteAt(t, [1, 0, 2], [i, j, k]);
    assert Gather([i, j, k], [1, 0, 2]) == [j, i, k];
  }

  lemma LaidSize(heads: nat, n: nat, block: nat, length: nat)
    requires length == n * block
    ensures Size([heads, n, block]) == Size([heads, length])
  {
    Size3(heads, n, block);
    Size2(heads, length);
    RegroupSize(heads, n, block);
  }

  /** `key[row].transpose(0, 1).reshape(H, P * block)`: one row's blocks, laid end to end. */
  function GatherRow<T>(cache: Tensor<T>, pages: nat, heads: nat, block: nat, row: seq<nat>,
                        length: nat): (r: Tensor<T>)
    requires IsCache(cache, pages, heads, block) && length == |row| * block
    requires forall n :: 0 <= n < |row| ==> row[n] < pages
    ensures r.Valid() && r.shape == [heads, length]
  {
    LaidSize(heads, |row|, block, length);
    View(SwapFirst(RowBlocks(cache, pages, heads, block, row)), [heads, length])
  }

  lemma GatherRowAt<T>(cache: Tensor<T>, pages: nat, heads: nat, block: nat, row: seq<nat>, length: nat,
                       n: nat, h: nat, o: nat)
    requires IsCache(cache, pages, heads, block) && length == |row| * block
    requires forall n :: 0 <= n < |row| ==> row[n] < pages
    requires n < |row| && h < heads && o < block
    ensures Pos(n, block, o) < length
    ensures At2(GatherRow(cache, pages, heads, block, row, length), h, Pos(n, block, o)) == At3(cache, row[n], h, o)
  {
    DigitBound(n, |row|, o, block);
    var blocks := RowBlocks(cache, pages, heads, block, row);
    assert At3(SwapFirst(blocks), h, n, o) == At3(cache, row[n], h, o) by { SwapFirstAt(blocks, n, h, o); }
    MergeLast3(heads, |row|, block, h, n, o, length, Pos(n, block, o));
  }
}
