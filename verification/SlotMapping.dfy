/** Where the new keys and values of a step go: slices of the paged cache, one per block a request touches. */
module SlotMapping {
  import opened Basics

  /** A run of `len` cells of the cache, starting at `cache`, filled from the new tokens starting at `source`. */
  datatype Slice = Slice(cache: int, source: int, len: int)

  /** One cell of the cache, and the new token that goes there. */
  datatype Placed = Placed(cache: int, source: int)

  // ---- sums, and lists glued from parts ----

  function Sum(s: seq<int>, k: nat): int
    requires k <= |s|
  {
    if k == 0 then 0 else Sum(s, k - 1) + s[k - 1]
  }

  function Lengths<T>(parts: seq<seq<T>>): (r: seq<int>)
    ensures |r| == |parts| && forall i | 0 <= i < |parts| :: r[i] == |parts[i]|
  {
    seq(|parts|, i requires 0 <= i < |parts| => |parts[i]|)
  }

  /** The first n parts, one after the other. */
  function Glue<T>(parts: seq<seq<T>>, n: nat): (r: seq<T>)
    requires n <= |parts|
    ensures |r| == Sum(Lengths(parts), n)
  {
    if n == 0 then [] else Glue(parts, n - 1) + parts[n - 1]
  }

  lemma {:induction false} GlueAt<T>(parts: seq<seq<T>>, n: nat, i: nat, j: nat)
    requires i < n <= |parts| && j < |parts[i]|
    ensures 0 <= Sum(Lengths(parts), i) && Sum(Lengths(parts), i) + j < |Glue(parts, n)|
    ensures Glue(parts, n)[Sum(Lengths(parts), i) + j] == parts[i][j]
  {
    assert |Glue(parts, i)| >= 0;
    if i < n - 1 {
      GlueAt(parts, n - 1, i, j);
    }
  }

  ghost predicate PartAt<T>(parts: seq<seq<T>>, i: nat, s: seq<T>)
    requires i < |parts|
  {
    var at := Sum(Lengths(parts), i);
    0 <= at && at + |parts[i]| <= |s| && forall j | 0 <= j < |parts[i]| :: s[at + j] == parts[i][j]
  }

  lemma {:induction false} OffsetFits<T>(parts: seq<seq<T>>, i: nat, n: nat)
    requires i < n <= |parts|
    ensures 0 <= Sum(Lengths(parts), i) && Sum(Lengths(parts), i) + |parts[i]| <= Sum(Lengths(parts), n)
  {
    assert |Glue(parts, i)| >= 0;
    if i < n - 1 {
      OffsetFits(parts, i, n - 1);
    }
  }

  /** A list that agrees with every part, at the part's place, is the parts glued together. */
  lemma {:induction false} GlueExt<T>(parts: seq<seq<T>>, n: nat, s: seq<T>)
    requires n <= |parts| && |s| == Sum(Lengths(parts), n)
    requires forall i | 0 <= i < n :: PartAt(parts, i, s)
    ensures s == Glue(parts, n)
  {
    if n > 0 {
      var at := Sum(Lengths(parts), n - 1);
      assert at == |Glue(parts, n - 1)|;
      forall i | 0 <= i < n - 1 ensures PartAt(parts, i, s[..at]) {
        assert PartAt(parts, i, s);
        OffsetFits(parts, i, n - 1);
        forall j | 0 <= j < |parts[i]| ensures s[..at][Sum(Lengths(parts), i) + j] == parts[i][j] {}
      }
      GlueExt(parts, n - 1, s[..at]);
      assert PartAt(parts, n - 1, s);
      assert s == s[..at] + s[at..] && s[at..] == parts[n - 1];
    }
  }

  function Totals(parts: seq<seq<int>>): (r: seq<int>)
    ensures |r| == |parts| && forall i | 0 <= i < |parts| :: r[i] == Sum(parts[i], |parts[i]|)
  {
    seq(|parts|, i requires 0 <= i < |parts| => Sum(parts[i], |parts[i]|))
  }

  /** The running sum over glued parts: the parts before, then the start of this part. */
  lemma {:induction false} GlueSum(parts: seq<seq<int>>, n: nat, i: nat, j: nat)
    requires i < n <= |parts| && j <= |parts[i]|
    ensures 0 <= Sum(Lengths(parts), i) && Sum(Lengths(parts), i) + j <= |Glue(parts, n)|
    ensures Sum(Glue(parts, n), Sum(Lengths(parts), i) + j) == Sum(Totals(parts), i) + Sum(parts[i], j)
  {
    OffsetFits(parts, i, n);
    if j > 0 {
      GlueSum(parts, n, i, j - 1);
      GlueAt(parts, n, i, j - 1);
    } else if i > 0 {
      OffsetFits(parts, i - 1, n);
      GlueSum(parts, n, i - 1, |parts[i - 1]|);
    }
  }

  // ---- pages ----

  function Page(p: nat, size: nat): nat
    requires size > 0
  {
    p / size
  }

  function Offset(p: nat, size: nat): nat
    requires size > 0
  {
    p % size
  }

  lemma PageOffset(p: nat, size: nat)
    requires size > 0
    ensures Page(p, size) * size + Offset(p, size) == p && Offset(p, size) < size
  {}

  lemma {:induction false} WholePages(a: nat, b: nat, size: nat)
    requires a < b
    ensures a * size + size <= b * size
  {
    if a + 1 < b {
      WholePages(a, b - 1, size);
      assert (b - 1) * size + size == b * size;
    }
  }

  lemma PageIs(p: nat, size: nat, page: nat, offset: nat)
    requires size > 0 && p == page * size + offset && offset < size
    ensures Page(p, size) == page && Offset(p, size) == offset
  {
    PageOffset(p, size);
    if Page(p, size) < page {
      WholePages(Page(p, size), page, size);
    } else if page < Page(p, size) {
      WholePages(page, Page(p, size), size);
    }
  }

  lemma PageMonotone(p: nat, q: nat, size: nat)
    requires size > 0 && p <= q
    ensures Page(p, size) <= Page(q, size)
  {
    PageOffset(p, size);
    PageOffset(q, size);
    if Page(q, size) < Page(p, size) {
      WholePages(Page(q, size), Page(p, size), size);
    }
  }

  /** The first position of the next page. */
  function NextPage(p: nat, size: nat): (q: nat)
    requires size > 0
    ensures q > p && Page(q, size) == Page(p, size) + 1 && Offset(q, size) == 0
    ensures q - p == size - Offset(p, size)
  {
    var q := (Page(p, size) + 1) * size;
    PageOffset(p, size);
    assert q == Page(p, size) * size + size;
    PageIs(q, size, Page(p, size) + 1, 0);
    q
  }

  // ---- token by token ----

  /** The cell of position p of the request whose table row starts at `base`. */
  function Cell(blocks: seq<nat>, base: nat, size: nat, p: nat): int
    requires size > 0 && base + Page(p, size) < |blocks|
  {
    blocks[base + Page(p, size)] * size + Offset(p, size)
  }

  /** The row holds a block for every position below `end`. */
  ghost predicate Mapped(blocks: seq<nat>, base: nat, size: nat, end: nat) {
    size > 0 && (end == 0 || base + Page(end - 1, size) < |blocks|)
  }

  lemma MappedBelow(blocks: seq<nat>, base: nat, size: nat, end: nat, p: nat)
    requires Mapped(blocks, base, size, end) && p < end
    ensures base + Page(p, size) < |blocks|
  {
    PageMonotone(p, end - 1, size);
  }

  /** The new tokens of one request, each with its cell. */
  ghost function TokensOf(blocks: seq<nat>, base: nat, size: nat, start: nat, end: nat, source: int): (r: seq<Placed>)
    requires Mapped(blocks, base, size, end) && start <= end
    ensures |r| == end - start
    ensures forall t | 0 <= t < |r| :: base + Page(start + t, size) < |blocks|
                                       && r[t] == Placed(Cell(blocks, base, size, start + t), source + t)
    decreases end - start
  {
    if start == end then []
    else
      MappedBelow(blocks, base, size, end, start);
      [Placed(Cell(blocks, base, size, start), source)] + TokensOf(blocks, base, size, start + 1, end, source + 1)
  }

  // ---- slice by slice ----

  /** The slices of one request: up to the end of each page in turn. */
  function SlicesOf(blocks: seq<nat>, base: nat, size: nat, start: nat, end: nat, source: int): (r: seq<Slice>)
    requires size > 0 && start <= end && (end == 0 || base + Page(end - 1, size) < |blocks|)
    decreases end - start
  {
    if start == end then []
    else
      PageMonotone(start, end - 1, size);
      var stop := Min(end, NextPage(start, size));
      [Slice(Cell(blocks, base, size, start), source, stop - start)]
      + SlicesOf(blocks, base, size, stop, end, source + stop - start)
  }

  /** The cells of a slice. */
  ghost function CellsOf(s: Slice, k: nat): seq<Placed>
    requires k <= s.len
  {
    if k == 0 then [] else CellsOf(s, k - 1) + [Placed(s.cache + k - 1, s.source + k - 1)]
  }

  lemma {:induction false} CellsAt(s: Slice, k: nat)
    requires k <= s.len
    ensures |CellsOf(s, k)| == k && forall t | 0 <= t < k :: CellsOf(s, k)[t] == Placed(s.cache + t, s.source + t)
  {
    if k > 0 {
      CellsAt(s, k - 1);
    }
  }

  /** Every slice laid out cell by cell, in order. */
  ghost function Expand(slices: seq<Slice>): seq<Placed>
    requires forall s | s in slices :: s.len >= 0
  {
    if slices == [] then [] else CellsOf(slices[0], slices[0].len) + Expand(slices[1..])
  }

  lemma {:induction false} ExpandConcat(a: seq<Slice>, b: seq<Slice>)
    requires forall s | s in a :: s.len >= 0
    requires forall s | s in b :: s.len >= 0
    ensures forall s | s in a + b :: s.len >= 0
    ensures Expand(a + b) == Expand(a) + Expand(b)
  {
    if a == [] {
      assert a + b == b;
    } else {
      ExpandConcat(a[1..], b);
      assert (a + b)[1..] == a[1..] + b;
    }
  }

  /** Positions on the page of `start`, up to `stop`, are consecutive cells. */
  lemma SamePage(blocks: seq<nat>, base: nat, size: nat, start: nat, p: nat)
    requires size > 0 && start <= p < NextPage(start, size) && base + Page(start, size) < |blocks|
    ensures Page(p, size) == Page(start, size)
    ensures Cell(blocks, base, size, p) == Cell(blocks, base, size, start) + p - start
  {
    PageOffset(start, size);
    PageIs(p, size, Page(start, size), Offset(start, size) + p - start);
  }

  /** Laying out a request's slices gives its tokens, one by one. */
  lemma {:induction false} RequestExpands(blocks: seq<nat>, base: nat, size: nat, start: nat, end: nat, source: int)
    requires Mapped(blocks, base, size, end) && start <= end
    ensures var slices := SlicesOf(blocks, base, size, start, end, source);
            && (forall s | s in slices :: s.len > 0)
            && Expand(slices) == TokensOf(blocks, base, size, start, end, source)
    decreases end - start
  {
    hide Page, Offset, TokensOf;
    if start < end {
      PageMonotone(start, end - 1, size);
      var stop := Min(end, NextPage(start, size));
      RequestExpands(blocks, base, size, stop, end, source + stop - start);
      var first := Slice(Cell(blocks, base, size, start), source, stop - start);
      var rest := SlicesOf(blocks, base, size, stop, end, source + stop - start);
      var slices := SlicesOf(blocks, base, size, start, end, source);
      assert slices[0] == first && slices[1..] == rest;
      CellsAt(first, stop - start);
      var tokens := TokensOf(blocks, base, size, start, end, source);
      forall t | 0 <= t < stop - start ensures CellsOf(first, stop - start)[t] == tokens[t] {
        SamePage(blocks, base, size, start, start + t);
      }
      assert Expand(slices) == tokens;
    }
  }

  // ---- the vectorised form ----

  /** How many pages the positions from start to end - 1 lie on. */
  function BlockCount(start: nat, end: nat, size: nat): (c: nat)
    requires size > 0 && start < end
    ensures c >= 1
  {
    PageMonotone(start, end - 1, size);
    Page(end - 1, size) - Page(start, size) + 1
  }

  /** Where the j-th slice of a request starts in its page, and where it stops. */
  function Low(start: nat, size: nat, j: nat): nat
    requires size > 0
  {
    if j == 0 then Offset(start, size) else 0
  }

  function High(end: nat, size: nat, count: nat, j: nat): nat
    requires size > 0 && end > 0
  {
    if j + 1 == count then Offset(end - 1, size) + 1 else size
  }

  function LensOf(start: nat, end: nat, size: nat): (r: seq<int>)
    requires size > 0 && start < end
    ensures |r| == BlockCount(start, end, size)
    ensures forall j | 0 <= j < |r| :: r[j] == High(end, size, |r|, j) - Low(start, size, j)
  {
    var c := BlockCount(start, end, size);
    seq(c, j requires 0 <= j < c => High(end, size, c, j) - Low(start, size, j))
  }

  lemma {:induction false} SumFront(s: seq<int>, k: nat)
    requires 1 <= k <= |s|
    ensures Sum(s, k) == s[0] + Sum(s[1..], k - 1)
  {
    if k > 1 {
      SumFront(s, k - 1);
    }
  }

  /** One page: the slice reaches to the end. */
  lemma LastPage(start: nat, end: nat, size: nat)
    requires size > 0 && start < end && BlockCount(start, end, size) == 1
    ensures end <= NextPage(start, size) && end - start == Offset(end - 1, size) + 1 - Offset(start, size)
  {
    PageOffset(start, size);
    PageOffset(end - 1, size);
  }

  /** More pages: the slice stops at the end of its page, and one page fewer is left. */
  lemma MorePages(start: nat, end: nat, size: nat)
    requires size > 0 && start < end && BlockCount(start, end, size) > 1
    ensures NextPage(start, size) < end
    ensures BlockCount(NextPage(start, size), end, size) == BlockCount(start, end, size) - 1
    ensures LensOf(start, end, size)[0] == NextPage(start, size) - start
    ensures LensOf(start, end, size)[1..] == LensOf(NextPage(start, size), end, size)
  {
    var next := NextPage(start, size);
    if end <= next {
      PageMonotone(end - 1, next - 1, size);
      PageOffset(start, size);
      PageIs(next - 1, size, Page(start, size), size - 1);
    }
  }

  /** A request's slices are as long as its tokens are many. */
  lemma {:induction false} LensTotal(start: nat, end: nat, size: nat)
    requires size > 0 && start < end
    ensures Sum(LensOf(start, end, size), BlockCount(start, end, size)) == end - start
    decreases end - start
  {
    hide Page, Offset, LensOf;
    var lens, c := LensOf(start, end, size), BlockCount(start, end, size);
    if c == 1 {
      LastPage(start, end, size);
      assert Sum(lens, 1) == lens[0];
    } else {
      MorePages(start, end, size);
      LensTotal(NextPage(start, size), end, size);
      SumFront(lens, c);
    }
  }

  /** The j-th slice of a request, from its bounds, its block and the lengths before it. */
  lemma {:induction false} SliceAt(blocks: seq<nat>, base: nat, size: nat, start: nat, end: nat, source: int, j: nat)
    requires Mapped(blocks, base, size, end) && start < end && j < BlockCount(start, end, size)
    ensures |SlicesOf(blocks, base, size, start, end, source)| == BlockCount(start, end, size)
    ensures base + Page(start, size) + j < |blocks|
    ensures var lens := LensOf(start, end, size);
            SlicesOf(blocks, base, size, start, end, source)[j]
            == Slice(Low(start, size, j) + blocks[base + Page(start, size) + j] * size, source + Sum(lens, j), lens[j])
    decreases end - start
  {
    hide Page, Offset, LensOf;
    var lens, c := LensOf(start, end, size), BlockCount(start, end, size);
    MappedBelow(blocks, base, size, end, start);
    if c == 1 {
      LastPage(start, end, size);
      assert Sum(lens, 1) == lens[0];
    } else {
      MorePages(start, end, size);
      var next := NextPage(start, size);
      var k := if j == 0 then 0 else j - 1;
      SliceAt(blocks, base, size, next, end, source + next - start, k);
      SumFront(lens, c);
      if j > 0 {
        SumFront(lens, j);
        assert lens[1..][j - 1] == lens[j];
      }
    }
  }

  // ---- all requests ----

  function RowAt(i: nat, width: nat): nat {
    i * width
  }

  /** Every request schedules a token, and its row of the table, `width` blocks wide, reaches its last position. */
  ghost predicate Scheduled(starts: seq<nat>, lens: seq<nat>, blocks: seq<nat>, width: nat, size: nat) {
    && |starts| == |lens| && size > 0
    && (forall i | 0 <= i < |starts| :: lens[i] >= 1 && RowAt(i, width) + width <= |blocks|
                                        && Page(starts[i] + lens[i] - 1, size) < width)
  }

  lemma ScheduledWhen(starts: seq<nat>, lens: seq<nat>, blocks: seq<nat>, width: nat, size: nat)
    requires |starts| == |lens| && size > 0
    requires forall i | 0 <= i < |starts| ::
               lens[i] >= 1 && i * width + width <= |blocks| && (starts[i] + lens[i] - 1) / size < width
    ensures Scheduled(starts, lens, blocks, width, size)
  {
    forall i | 0 <= i < |starts|
      ensures RowAt(i, width) + width <= |blocks| && Page(starts[i] + lens[i] - 1, size) < width {}
  }

  /** The new tokens of every request in turn, each with its cell. */
  ghost function TokenParts(starts: seq<nat>, lens: seq<nat>, blocks: seq<nat>, width: nat,
                            size: nat): (r: seq<seq<Placed>>)
    requires Scheduled(starts, lens, blocks, width, size)
    ensures |r| == |starts|
    ensures forall i | 0 <= i < |starts| ::
              r[i] == TokensOf(blocks, RowAt(i, width), size, starts[i], starts[i] + lens[i], Sum(lens, i))
  {
    seq(|starts|, i requires 0 <= i < |starts| =>
      TokensOf(blocks, RowAt(i, width), size, starts[i], starts[i] + lens[i], Sum(lens, i)))
  }

  ghost function SliceParts(starts: seq<nat>, lens: seq<nat>, blocks: seq<nat>, width: nat,
                            size: nat): (r: seq<seq<Slice>>)
    requires Scheduled(starts, lens, blocks, width, size)
    ensures |r| == |starts|
    ensures forall i | 0 <= i < |starts| ::
              r[i] == SlicesOf(blocks, RowAt(i, width), size, starts[i], starts[i] + lens[i], Sum(lens, i))
  {
    seq(|starts|, i requires 0 <= i < |starts| =>
      SlicesOf(blocks, RowAt(i, width), size, starts[i], starts[i] + lens[i], Sum(lens, i)))
  }

  /** The slices, none of them empty, are these placed tokens when they are laid out cell by cell. */
  ghost predicate Lays(slices: seq<Slice>, tokens: seq<Placed>) {
    (forall s | s in slices :: s.len > 0) && Expand(slices) == tokens
  }

  lemma {:induction false} GlueLays(slices: seq<seq<Slice>>, tokens: seq<seq<Placed>>, n: nat)
    requires |slices| == |tokens| && n <= |slices| && forall i | 0 <= i < |slices| :: Lays(slices[i], tokens[i])
    ensures Lays(Glue(slices, n), Glue(tokens, n))
  {
    if n > 0 {
      GlueLays(slices, tokens, n - 1);
      assert Lays(slices[n - 1], tokens[n - 1]);
      ExpandConcat(Glue(slices, n - 1), slices[n - 1]);
    }
  }

  lemma PartLays(starts: seq<nat>, lens: seq<nat>, blocks: seq<nat>, width: nat, size: nat, i: nat)
    requires Scheduled(starts, lens, blocks, width, size) && i < |starts|
    ensures Lays(SliceParts(starts, lens, blocks, width, size)[i], TokenParts(starts, lens, blocks, width, size)[i])
  {
    hide Page, Offset, SlicesOf, TokensOf, RowAt, Sum, SliceParts, TokenParts, Expand;
    var base, end := RowAt(i, width), starts[i] + lens[i];
    assert Mapped(blocks, base, size, end);
    RequestExpands(blocks, base, size, starts[i], end, Sum(lens, i));
  }

  lemma PartsLay(starts: seq<nat>, lens: seq<nat>, blocks: seq<nat>, width: nat, size: nat)
    requires Scheduled(starts, lens, blocks, width, size)
    ensures Lays(Glue(SliceParts(starts, lens, blocks, width, size), |starts|),
                 Glue(TokenParts(starts, lens, blocks, width, size), |starts|))
  {
    hide SlicesOf, TokensOf, SliceParts, TokenParts, Scheduled, Lays, Glue;
    forall i | 0 <= i < |starts|
      ensures Lays(SliceParts(starts, lens, blocks, width, size)[i], TokenParts(starts, lens, blocks, width, size)[i])
    {
      PartLays(starts, lens, blocks, width, size, i);
    }
    GlueLays(SliceParts(starts, lens, blocks, width, size), TokenParts(starts, lens, blocks, width, size), |starts|);
  }

  // ---- the computation, column by column ----

  function Counts(starts: seq<nat>, lens: seq<nat>, size: nat): (r: seq<int>)
    requires |starts| == |lens| && size > 0 && forall i | 0 <= i < |lens| :: lens[i] >= 1
    ensures |r| == |starts|
    ensures forall i | 0 <= i < |r| :: r[i] == BlockCount(starts[i], starts[i] + lens[i], size) >= 1
  {
    seq(|starts|, i requires 0 <= i < |starts| => BlockCount(starts[i], starts[i] + lens[i], size))
  }

  /** Each value as often as its count says. */
  function Repeat(values: seq<int>, counts: seq<int>): (r: seq<seq<int>>)
    requires |values| == |counts| && forall i | 0 <= i < |counts| :: counts[i] >= 0
    ensures |r| == |counts|
    ensures forall i | 0 <= i < |r| :: |r[i]| == counts[i] && forall j | 0 <= j < counts[i] :: r[i][j] == values[i]
  {
    seq(|counts|, i requires 0 <= i < |counts| => seq(counts[i], j => values[i]))
  }

  /** 0, 1, 2, ... up to each count. */
  function Ranges(counts: seq<int>): (r: seq<seq<int>>)
    requires forall i | 0 <= i < |counts| :: counts[i] >= 0
    ensures |r| == |counts|
    ensures forall i | 0 <= i < |r| :: |r[i]| == counts[i] && forall j | 0 <= j < counts[i] :: r[i][j] == j
  {
    seq(|counts|, i requires 0 <= i < |counts| => seq(counts[i], j => j))
  }

  /** A request's row: its place in the flat table, from its first page on. */
  function FirstBlocks(starts: seq<nat>, width: nat, size: nat): (r: seq<int>)
    requires size > 0
    ensures |r| == |starts| && forall i | 0 <= i < |r| :: r[i] == RowAt(i, width) + Page(starts[i], size)
  {
    seq(|starts|, i requires 0 <= i < |starts| => RowAt(i, width) + Page(starts[i], size))
  }

  function Plus(a: seq<int>, b: seq<int>): (r: seq<int>)
    requires |a| == |b|
    ensures |r| == |a| && forall k | 0 <= k < |r| :: r[k] == a[k] + b[k]
  {
    seq(|a|, k requires 0 <= k < |a| => a[k] + b[k])
  }

  function Minus(a: seq<int>, b: seq<int>): (r: seq<int>)
    requires |a| == |b|
    ensures |r| == |a| && forall k | 0 <= k < |r| :: r[k] == a[k] - b[k]
  {
    seq(|a|, k requires 0 <= k < |a| => a[k] - b[k])
  }

  /** The table entries at these places. */
  function Gather(blocks: seq<nat>, indices: seq<int>): (r: seq<nat>)
    requires forall k | 0 <= k < |indices| :: 0 <= indices[k] < |blocks|
    ensures |r| == |indices| && forall k | 0 <= k < |r| :: r[k] == blocks[indices[k]]
  {
    seq(|indices|, k requires 0 <= k < |indices| => blocks[indices[k]])
  }

  /** The three columns of the result. */
  function Stack(lo: seq<int>, hi: seq<int>, numbers: seq<nat>, size: nat): (r: seq<Slice>)
    requires |lo| == |hi| == |numbers|
    ensures |r| == |lo|
    ensures forall k | 0 <= k < |r| :: r[k] == Slice(lo[k] + numbers[k] * size, Sum(Minus(hi, lo), k), hi[k] - lo[k])
  {
    seq(|lo|, k requires 0 <= k < |lo| => Slice(lo[k] + numbers[k] * size, Sum(Minus(hi, lo), k), hi[k] - lo[k]))
  }

  ghost function LensParts(starts: seq<nat>, lens: seq<nat>, size: nat): (r: seq<seq<int>>)
    requires |starts| == |lens| && size > 0 && forall i | 0 <= i < |lens| :: lens[i] >= 1
    ensures |r| == |starts| && forall i | 0 <= i < |r| :: r[i] == LensOf(starts[i], starts[i] + lens[i], size)
  {
    seq(|starts|, i requires 0 <= i < |starts| => LensOf(starts[i], starts[i] + lens[i], size))
  }

  /** The flat table is read at consecutive places of the request's own row. */
  lemma IndexAt(starts: seq<nat>, lens: seq<nat>, blocks: seq<nat>, width: nat, size: nat, i: nat, j: nat)
    requires Scheduled(starts, lens, blocks, width, size) && i < |starts|
    requires j < BlockCount(starts[i], starts[i] + lens[i], size)
    ensures var counts := Counts(starts, lens, size);
            var first, ranges := Glue(Repeat(FirstBlocks(starts, width, size), counts), |starts|),
              Glue(Ranges(counts), |starts|);
            && |first| == |ranges| == Sum(counts, |starts|)
            && 0 <= Sum(counts, i) && Sum(counts, i) + j < |first|
            && Plus(first, ranges)[Sum(counts, i) + j] == RowAt(i, width) + Page(starts[i], size) + j < |blocks|
  {
    hide Page, Offset, RowAt, Sum, Glue;
    var counts := Counts(starts, lens, size);
    var firsts, ranges := Repeat(FirstBlocks(starts, width, size), counts), Ranges(counts);
    assert Lengths(firsts) == counts && Lengths(ranges) == counts;
    GlueAt(firsts, |starts|, i, j);
    GlueAt(ranges, |starts|, i, j);
  }

  /** Every place among glued parts belongs to some part. */
  lemma {:induction false} PlaceOf(counts: seq<int>, n: nat, k: nat) returns (i: nat, j: nat)
    requires n <= |counts| && (forall i | 0 <= i < |counts| :: counts[i] >= 1) && k < Sum(counts, n)
    ensures i < n && j < counts[i] && k == Sum(counts, i) + j
  {
    if k < Sum(counts, n - 1) {
      i, j := PlaceOf(counts, n - 1, k);
    } else {
      i, j := n - 1, k - Sum(counts, n - 1);
    }
  }

  lemma {:induction false} CountsFit(counts: seq<int>, i: nat, n: nat)
    requires i <= n <= |counts| && forall i | 0 <= i < |counts| :: counts[i] >= 1
    ensures 0 <= Sum(counts, i) <= Sum(counts, n) && (i < n ==> Sum(counts, i) + counts[i] <= Sum(counts, n))
  {
    if i < n {
      CountsFit(counts, i, n - 1);
    } else if i > 0 {
      CountsFit(counts, i - 1, i - 1);
    }
  }

  /** The bounds of the i-th request, at its place in the two columns. */
  ghost predicate BoundsAt(starts: seq<nat>, lens: seq<nat>, size: nat, lo: seq<int>, hi: seq<int>, i: nat)
    requires |starts| == |lens| && size > 0 && (forall i | 0 <= i < |lens| :: lens[i] >= 1) && i < |starts|
             && |lo| == |hi|
  {
    var at, end, c := Sum(Counts(starts, lens, size), i), starts[i] + lens[i],
      BlockCount(starts[i], starts[i] + lens[i], size);
    && 0 <= at && at + c <= |lo|
    && forall j | 0 <= j < c :: lo[at + j] == Low(starts[i], size, j) && hi[at + j] == High(end, size, c, j)
  }

  ghost predicate BoundsHold(starts: seq<nat>, lens: seq<nat>, size: nat, lo: seq<int>, hi: seq<int>) {
    && |starts| == |lens| && size > 0 && (forall i | 0 <= i < |lens| :: lens[i] >= 1)
    && |lo| == |hi| == Sum(Counts(starts, lens, size), |starts|)
    && forall i | 0 <= i < |starts| :: BoundsAt(starts, lens, size, lo, hi, i)
  }

  lemma LensCounted(starts: seq<nat>, lens: seq<nat>, size: nat)
    requires |starts| == |lens| && size > 0 && forall i | 0 <= i < |lens| :: lens[i] >= 1
    ensures Lengths(LensParts(starts, lens, size)) == Counts(starts, lens, size)
    ensures Totals(LensParts(starts, lens, size)) == lens
  {
    hide Page, Offset, BlockCount, Low, High, Sum;
    var parts := LensParts(starts, lens, size);
    forall i | 0 <= i < |starts| ensures Sum(parts[i], |parts[i]|) == lens[i] {
      LensTotal(starts[i], starts[i] + lens[i], size);
    }
  }

  lemma LensPartAt(starts: seq<nat>, lens: seq<nat>, size: nat, lo: seq<int>, hi: seq<int>, i: nat)
    requires BoundsHold(starts, lens, size, lo, hi) && i < |starts|
    ensures PartAt(LensParts(starts, lens, size), i, Minus(hi, lo))
  {
    hide Page, Offset, BlockCount, Low, High, Sum;
    LensCounted(starts, lens, size);
    assert BoundsAt(starts, lens, size, lo, hi, i);
  }

  /** The column of lengths is the lengths of every request in turn. */
  lemma LengthsGlued(starts: seq<nat>, lens: seq<nat>, size: nat, lo: seq<int>, hi: seq<int>)
    requires BoundsHold(starts, lens, size, lo, hi)
    ensures Minus(hi, lo) == Glue(LensParts(starts, lens, size), |starts|)
  {
    hide BoundsAt, Sum, PartAt, LensParts, Counts, Lengths, Totals, Glue;
    LensCounted(starts, lens, size);
    forall i | 0 <= i < |starts| ensures PartAt(LensParts(starts, lens, size), i, Minus(hi, lo)) {
      LensPartAt(starts, lens, size, lo, hi, i);
    }
    GlueExt(LensParts(starts, lens, size), |starts|, Minus(hi, lo));
  }

  /** The length of a slice, and the sum of all lengths before it. */
  lemma LengthsAt(starts: seq<nat>, lens: seq<nat>, size: nat, lo: seq<int>, hi: seq<int>, i: nat, j: nat)
    requires BoundsHold(starts, lens, size, lo, hi)
    requires i < |starts| && j < BlockCount(starts[i], starts[i] + lens[i], size)
    ensures var at, mine := Sum(Counts(starts, lens, size), i), LensOf(starts[i], starts[i] + lens[i], size);
            && 0 <= at && at + j < |lo| && Minus(hi, lo)[at + j] == mine[j]
            && Sum(Minus(hi, lo), at + j) == Sum(lens, i) + Sum(mine, j)
  {
    hide Page, Offset, BlockCount, Low, High, BoundsAt, Minus, Sum;
    var parts, n := LensParts(starts, lens, size), |starts|;
    LengthsGlued(starts, lens, size, lo, hi);
    LensCounted(starts, lens, size);
    GlueSum(parts, n, i, j);
    GlueAt(parts, n, i, j);
  }

  ghost predicate NumberAt(starts: seq<nat>, lens: seq<nat>, blocks: seq<nat>, width: nat, size: nat, numbers: seq<nat>,
                           i: nat, j: nat)
    requires |starts| == |lens| && size > 0 && (forall i | 0 <= i < |lens| :: lens[i] >= 1) && i < |starts|
  {
    var at, place := Sum(Counts(starts, lens, size), i) + j, RowAt(i, width) + Page(starts[i], size) + j;
    0 <= at < |numbers| && place < |blocks| && numbers[at] == blocks[place]
  }

  lemma RowMapped(starts: seq<nat>, lens: seq<nat>, blocks: seq<nat>, width: nat, size: nat, i: nat)
    requires Scheduled(starts, lens, blocks, width, size) && i < |starts|
    ensures starts[i] < starts[i] + lens[i] && Mapped(blocks, RowAt(i, width), size, starts[i] + lens[i])
  {
    hide Page, RowAt;
  }

  /** One stacked row is one slice of its request. */
  lemma StackAt(starts: seq<nat>, lens: seq<nat>, blocks: seq<nat>, width: nat, size: nat, lo: seq<int>, hi: seq<int>,
                numbers: seq<nat>, i: nat, j: nat)
    requires Scheduled(starts, lens, blocks, width, size) && BoundsHold(starts, lens, size, lo, hi) && |numbers| == |lo|
    requires i < |starts| && j < BlockCount(starts[i], starts[i] + lens[i], size)
    requires NumberAt(starts, lens, blocks, width, size, numbers, i, j)
    ensures var at, part := Sum(Counts(starts, lens, size), i), SliceParts(starts, lens, blocks, width, size)[i];
            && |part| == BlockCount(starts[i], starts[i] + lens[i], size)
            && 0 <= at && at + j < |lo| && Stack(lo, hi, numbers, size)[at + j] == part[j]
  {
    hide Page, Offset, BlockCount, Low, High, RowAt, Scheduled, Sum, LensOf, SlicesOf;
    RowMapped(starts, lens, blocks, width, size, i);
    SliceAt(blocks, RowAt(i, width), size, starts[i], starts[i] + lens[i], Sum(lens, i), j);
    LengthsAt(starts, lens, size, lo, hi, i, j);
    assert BoundsAt(starts, lens, size, lo, hi, i);
  }

  lemma SlicesCounted(starts: seq<nat>, lens: seq<nat>, blocks: seq<nat>, width: nat, size: nat)
    requires Scheduled(starts, lens, blocks, width, size)
    ensures Lengths(SliceParts(starts, lens, blocks, width, size)) == Counts(starts, lens, size)
  {
    hide Page, Offset, BlockCount, RowAt, Sum, SlicesOf;
    var parts := SliceParts(starts, lens, blocks, width, size);
    forall i | 0 <= i < |starts| ensures |parts[i]| == Counts(starts, lens, size)[i] {
      RowMapped(starts, lens, blocks, width, size, i);
      SliceAt(blocks, RowAt(i, width), size, starts[i], starts[i] + lens[i], Sum(lens, i), 0);
    }
  }

  lemma StackPartAt(starts: seq<nat>, lens: seq<nat>, blocks: seq<nat>, width: nat, size: nat, lo: seq<int>,
                    hi: seq<int>,
                    numbers: seq<nat>, i: nat)
    requires Scheduled(starts, lens, blocks, width, size) && BoundsHold(starts, lens, size, lo, hi) && |numbers| == |lo|
    requires i < |starts| && forall j | 0 <= j < BlockCount(starts[i], starts[i] + lens[i], size) ::
                               NumberAt(starts, lens, blocks, width, size, numbers, i, j)
    ensures PartAt(SliceParts(starts, lens, blocks, width, size), i, Stack(lo, hi, numbers, size))
  {
    hide Page, Offset, BlockCount, Low, High, RowAt, Scheduled, Sum, SlicesOf, BoundsAt, NumberAt, Stack,
      SliceParts, Glue, Counts;
    SlicesCounted(starts, lens, blocks, width, size);
    var part, c := SliceParts(starts, lens, blocks, width, size)[i], BlockCount(starts[i], starts[i] + lens[i], size);
    StackAt(starts, lens, blocks, width, size, lo, hi, numbers, i, c - 1);
    forall j | 0 <= j < c
      ensures Stack(lo, hi, numbers, size)[Sum(Counts(starts, lens, size), i) + j] == part[j]
    {
      StackAt(starts, lens, blocks, width, size, lo, hi, numbers, i, j);
    }
  }

  /** The stacked columns are the slices of every request in turn. */
  lemma Assemble(starts: seq<nat>, lens: seq<nat>, blocks: seq<nat>, width: nat, size: nat, lo: seq<int>, hi: seq<int>,
                 numbers: seq<nat>)
    requires Scheduled(starts, lens, blocks, width, size) && BoundsHold(starts, lens, size, lo, hi) && |numbers| == |lo|
    requires forall i, j | 0 <= i < |starts| && 0 <= j < BlockCount(starts[i], starts[i] + lens[i], size) ::
               NumberAt(starts, lens, blocks, width, size, numbers, i, j)
    ensures Stack(lo, hi, numbers, size) == Glue(SliceParts(starts, lens, blocks, width, size), |starts|)
  {
    hide BlockCount, Scheduled, Sum, BoundsAt, NumberAt, Stack, SliceParts, Glue, Lengths, PartAt;
    SlicesCounted(starts, lens, blocks, width, size);
    forall i | 0 <= i < |starts|
      ensures PartAt(SliceParts(starts, lens, blocks, width, size), i, Stack(lo, hi, numbers, size)) {
      StackPartAt(starts, lens, blocks, width, size, lo, hi, numbers, i);
    }
    GlueExt(SliceParts(starts, lens, blocks, width, size), |starts|, Stack(lo, hi, numbers, size));
  }

  // ---- the method ----

  /** For every slice, its place in the flat table. */
  function Indices(starts: seq<nat>, lens: seq<nat>, width: nat, size: nat): seq<int>
    requires |starts| == |lens| && size > 0 && forall i | 0 <= i < |lens| :: lens[i] >= 1
  {
    var counts := Counts(starts, lens, size);
    assert Lengths(Repeat(FirstBlocks(starts, width, size), counts)) == counts && Lengths(Ranges(counts)) == counts;
    Plus(Glue(Repeat(FirstBlocks(starts, width, size), counts), |starts|), Glue(Ranges(counts), |starts|))
  }

  /** The places in the flat table, one per slice, exist; the entries there are the blocks of the slices. */
  lemma NumbersAt(starts: seq<nat>, lens: seq<nat>, blocks: seq<nat>, width: nat, size: nat)
    requires Scheduled(starts, lens, blocks, width, size)
    ensures var indices := Indices(starts, lens, width, size);
            && |indices| == Sum(Counts(starts, lens, size), |starts|)
            && (forall k | 0 <= k < |indices| :: 0 <= indices[k] < |blocks|)
            && forall i, j | 0 <= i < |starts| && 0 <= j < BlockCount(starts[i], starts[i] + lens[i], size) ::
                 NumberAt(starts, lens, blocks, width, size, Gather(blocks, indices), i, j)
  {
    hide Page, Offset, RowAt, Sum, Glue, BlockCount;
    var indices, counts := Indices(starts, lens, width, size), Counts(starts, lens, size);
    assert Lengths(Repeat(FirstBlocks(starts, width, size), counts)) == counts && Lengths(Ranges(counts)) == counts;
    forall k | 0 <= k < |indices| ensures 0 <= indices[k] < |blocks| {
      var i, j := PlaceOf(counts, |starts|, k);
      IndexAt(starts, lens, blocks, width, size, i, j);
    }
    forall i, j | 0 <= i < |starts| && 0 <= j < BlockCount(starts[i], starts[i] + lens[i], size)
      ensures NumberAt(starts, lens, blocks, width, size, Gather(blocks, indices), i, j)
    {
      IndexAt(starts, lens, blocks, width, size, i, j);
    }
  }

  /** The bounds of the i-th request in the two columns of the array. */
  ghost predicate Bounded(bounds: array2<int>, starts: seq<nat>, lens: seq<nat>, size: nat, i: nat)
    requires |starts| == |lens| && size > 0 && (forall i | 0 <= i < |lens| :: lens[i] >= 1) && i < |starts|
    requires bounds.Length1 == 2
    reads bounds
  {
    var at, end, c := Sum(Counts(starts, lens, size), i), starts[i] + lens[i],
      BlockCount(starts[i], starts[i] + lens[i], size);
    && 0 <= at && at + c <= bounds.Length0
    && forall j | 0 <= j < c ::
         bounds[at + j, 0] == Low(starts[i], size, j) && bounds[at + j, 1] == High(end, size, c, j)
  }

  lemma SumStart(s: seq<int>)
    ensures Sum(s, 0) == 0
  {}

  lemma SumNext(s: seq<int>, k: nat)
    requires k < |s|
    ensures Sum(s, k + 1) == Sum(s, k) + s[k]
  {}

  /** Whole pages everywhere, but for where a request starts and where it ends. */
  method FillBounds(starts: seq<nat>, lens: seq<nat>, size: nat) returns (bounds: array2<int>)
    requires |starts| == |lens| && size > 0 && forall i | 0 <= i < |lens| :: lens[i] >= 1
    ensures bounds.Length0 == Sum(Counts(starts, lens, size), |starts|) && bounds.Length1 == 2
    ensures forall i | 0 <= i < |starts| :: Bounded(bounds, starts, lens, size, i)
  {
    hide Sum, Offset, Page, BlockCount;
    var counts := Counts(starts, lens, size);
    CountsFit(counts, |starts|, |starts|);
    bounds := new int[Sum(counts, |starts|), 2]((k, side) => if side == 0 then 0 else size);
    var r := 0;
    SumStart(counts);
    while r < |starts|
      invariant 0 <= r <= |starts| && 0 <= Sum(counts, r) <= bounds.Length0
      invariant forall i | 0 <= i < r :: Bounded(bounds, starts, lens, size, i)
      invariant forall k | Sum(counts, r) <= k < bounds.Length0 :: bounds[k, 0] == 0 && bounds[k, 1] == size
    {
      SumNext(counts, r);
      CountsFit(counts, r, |starts|);
      forall i | 0 <= i < r ensures Sum(counts, i) + counts[i] <= Sum(counts, r) {
        CountsFit(counts, i, r);
      }
      label Before:
      bounds[Sum(counts, r), 0] := Offset(starts[r], size);
      bounds[Sum(counts, r + 1) - 1, 1] := Offset(starts[r] + lens[r] - 1, size) + 1;
      forall i | 0 <= i <= r ensures Bounded(bounds, starts, lens, size, i) {
        if i < r {
          assert old@Before(Bounded(bounds, starts, lens, size, i));
        }
      }
      r := r + 1;
    }
  }

  /** The new tokens of all requests in order, each with its cell of the cache. */
  ghost function NewTokens(starts: seq<nat>, lens: seq<nat>, blocks: seq<nat>, width: nat, size: nat): seq<Placed>
    requires Scheduled(starts, lens, blocks, width, size)
  {
    Glue(TokenParts(starts, lens, blocks, width, size), |starts|)
  }

  /** Column after column, without looking at a single token: yet the slices place every new token
      in its cell, in order. */
  method GetSlotMappingMetadata(starts: seq<nat>, lens: seq<nat>, blocks: seq<nat>, width: nat, size: nat)
    returns (slices: seq<Slice>)
    requires Scheduled(starts, lens, blocks, width, size)
    ensures Lays(slices, NewTokens(starts, lens, blocks, width, size))
    ensures |slices| == Sum(Counts(starts, lens, size), |starts|)
  {
    hide Sum, Offset, Page, BlockCount, Low, High, Glue, Lays, NumberAt, RowAt, Counts, Indices, TokenParts, SliceParts;
    NumbersAt(starts, lens, blocks, width, size);
    var numbers := Gather(blocks, Indices(starts, lens, width, size));
    var bounds := FillBounds(starts, lens, size);
    var lo := seq(bounds.Length0, k requires 0 <= k < bounds.Length0 reads bounds => bounds[k, 0]);
    var hi := seq(bounds.Length0, k requires 0 <= k < bounds.Length0 reads bounds => bounds[k, 1]);
    forall i | 0 <= i < |starts| ensures BoundsAt(starts, lens, size, lo, hi, i) {
      assert Bounded(bounds, starts, lens, size, i);
    }
    slices := Stack(lo, hi, numbers, size);
    Assemble(starts, lens, blocks, width, size, lo, hi, numbers);
    PartsLay(starts, lens, blocks, width, size);
  }

  // ---- what the placement says of a token ----

  function BlockAt(blocks: seq<nat>, width: nat, i: nat, a: nat): int {
    if RowAt(i, width) + a < |blocks| then blocks[RowAt(i, width) + a] else -1
  }

  /** Position p of request i is offset p mod size of the block its row names for page p / size. */
  function CellOf(blocks: seq<nat>, width: nat, size: nat, i: nat, p: nat): int
    requires size > 0
  {
    BlockAt(blocks, width, i, Page(p, size)) * size + Offset(p, size)
  }

  ghost predicate HasAt(tokens: seq<Placed>, k: int, token: Placed) {
    0 <= k < |tokens| && tokens[k] == token
  }

  lemma TokensCounted(starts: seq<nat>, lens: seq<nat>, blocks: seq<nat>, width: nat, size: nat)
    requires Scheduled(starts, lens, blocks, width, size)
    ensures Lengths(TokenParts(starts, lens, blocks, width, size)) == lens
  {
    hide Page, Offset, RowAt, Sum, TokensOf, TokenParts;
  }

  /** Token t of request i, at position starts[i] + t, goes to that position's cell, counted behind
      the requests before it. */
  lemma TokenPlaced(starts: seq<nat>, lens: seq<nat>, blocks: seq<nat>, width: nat, size: nat, i: nat, t: nat)
    requires Scheduled(starts, lens, blocks, width, size) && i < |starts| && t < lens[i]
    ensures RowAt(i, width) + Page(starts[i] + t, size) < |blocks|
    ensures HasAt(NewTokens(starts, lens, blocks, width, size), Sum(lens, i) + t,
                  Placed(CellOf(blocks, width, size, i, starts[i] + t), Sum(lens, i) + t))
  {
    hide Page, Offset, RowAt, Sum, TokensOf, TokenParts, Glue, Lengths;
    TokensCounted(starts, lens, blocks, width, size);
    RowMapped(starts, lens, blocks, width, size, i);
    MappedBelow(blocks, RowAt(i, width), size, starts[i] + lens[i], starts[i] + t);
    GlueAt(TokenParts(starts, lens, blocks, width, size), |starts|, i, t);
  }

  /** The running sums of these lengths. */
  ghost predicate RunningSums(sums: seq<nat>, lens: seq<int>) {
    && |sums| == |lens| + 1 && sums[0] == 0
    && forall i | 0 <= i < |lens| :: sums[i + 1] == sums[i] + lens[i]
  }

  lemma {:induction false} SumsAre(sums: seq<nat>, lens: seq<int>, n: nat)
    requires RunningSums(sums, lens) && n <= |lens|
    ensures Sum(lens, n) == sums[n]
  {
    if n > 0 {
      SumsAre(sums, lens, n - 1);
    }
  }

  lemma FirstIs(first: seq<nat>, lens: seq<nat>, i: nat)
    requires |first| == |lens| + 1 && first[0] == 0 && forall k | 0 <= k < |lens| :: first[k + 1] == first[k] + lens[k]
    requires i <= |lens|
    ensures Sum(lens, i) == first[i]
  {
    SumsAre(first, lens, i);
  }

  lemma TokensTotal(starts: seq<nat>, lens: seq<nat>, blocks: seq<nat>, width: nat, size: nat, first: seq<nat>)
    requires Scheduled(starts, lens, blocks, width, size)
    requires |first| == |lens| + 1 && first[0] == 0 && forall k | 0 <= k < |lens| :: first[k + 1] == first[k] + lens[k]
    ensures |NewTokens(starts, lens, blocks, width, size)| == first[|lens|]
  {
    hide Sum, TokensOf, TokenParts, Lengths;
    TokensCounted(starts, lens, blocks, width, size);
    FirstIs(first, lens, |lens|);
  }

  lemma ScheduledParts(starts: seq<nat>, lens: seq<nat>, blocks: seq<nat>, width: nat, size: nat)
    requires Scheduled(starts, lens, blocks, width, size)
    ensures |starts| == |lens| && size > 0
  {}

  /** Token t of request i is counted behind the tokens of the requests before it. */
  lemma TokenNumbered(starts: seq<nat>, lens: seq<nat>, blocks: seq<nat>, width: nat, size: nat, first: seq<nat>,
                      i: nat, t: nat)
    requires Scheduled(starts, lens, blocks, width, size) && i < |starts| && t < lens[i]
    requires |first| == |lens| + 1 && first[0] == 0 && forall k | 0 <= k < |lens| :: first[k + 1] == first[k] + lens[k]
    ensures RowAt(i, width) + Page(starts[i] + t, size) < |blocks|
    ensures var tokens := NewTokens(starts, lens, blocks, width, size);
            && |tokens| == first[|lens|] && first[i] + t < |tokens|
            && tokens[first[i] + t] == Placed(CellOf(blocks, width, size, i, starts[i] + t), first[i] + t)
  {
    hide Sum, Scheduled, NewTokens, CellOf, RowAt, Page;
    ScheduledParts(starts, lens, blocks, width, size);
    TokensTotal(starts, lens, blocks, width, size, first);
    FirstIs(first, lens, i);
    TokenPlaced(starts, lens, blocks, width, size, i, t);
  }

  lemma CellIs(blocks: seq<nat>, width: nat, size: nat, i: nat, p: nat, place: nat)
    requires size > 0 && RowAt(i, width) + Page(p, size) < |blocks| && place == i * width + p / size
    ensures place < |blocks| && CellOf(blocks, width, size, i, p) == blocks[place] * size + p % size
  {}

  /** Position p of request i goes to offset p mod size of the block its row of the table names at p / size; the
      tokens are counted behind those of the requests before. */
  lemma TokenCell(starts: seq<nat>, lens: seq<nat>, blocks: seq<nat>, width: nat, size: nat, first: seq<nat>,
                  i: nat, t: nat, p: nat, place: nat)
    requires Scheduled(starts, lens, blocks, width, size) && i < |starts| && t < lens[i]
    requires p == starts[i] + t && place == i * width + p / size
    requires |first| == |lens| + 1 && first[0] == 0 && forall k | 0 <= k < |lens| :: first[k + 1] == first[k] + lens[k]
    ensures var tokens := NewTokens(starts, lens, blocks, width, size);
            && |tokens| == first[|lens|] && first[i] + t < |tokens| && place < |blocks|
            && tokens[first[i] + t] == Placed(blocks[place] * size + p % size, first[i] + t)
  {
    hide Sum, Scheduled, NewTokens, CellOf, RowAt, Page;
    TokenNumbered(starts, lens, blocks, width, size, first, i, t);
    ScheduledParts(starts, lens, blocks, width, size);
    CellIs(blocks, width, size, i, p, place);
  }

  /** The first n slices, laid out, are as many tokens as their lengths add up to. */
  lemma {:induction false} LaidLength(slices: seq<Slice>, ends: seq<nat>, n: nat)
    requires |ends| == |slices| + 1 && ends[0] == 0 && n <= |slices|
    requires forall m | 0 <= m < |slices| :: slices[m].len >= 0 && ends[m + 1] == ends[m] + slices[m].len
    ensures |Expand(slices[..n])| == ends[n]
  {
    if n > 0 {
      var last := [slices[n - 1]];
      LaidLength(slices, ends, n - 1);
      assert slices[..n] == slices[..n - 1] + last;
      ExpandConcat(slices[..n - 1], last);
      CellsAt(slices[n - 1], slices[n - 1].len);
      assert last[1..] == [];
    }
  }

  lemma Nonempty(slices: seq<Slice>, tokens: seq<Placed>)
    requires Lays(slices, tokens)
    ensures (forall m | 0 <= m < |slices| :: slices[m].len > 0) && (forall s | s in slices :: s.len >= 0)
    ensures Expand(slices) == tokens
  {
    forall m | 0 <= m < |slices| ensures slices[m].len > 0 {
      assert slices[m] in slices;
    }
  }

  lemma LaidBehind(slices: seq<Slice>, k: nat, o: nat)
    requires (forall m | 0 <= m < |slices| :: slices[m].len >= 0) && k < |slices| && o < slices[k].len
    ensures |Expand(slices[..k])| + o < |Expand(slices)|
    ensures Expand(slices)[|Expand(slices[..k])| + o] == Placed(slices[k].cache + o, slices[k].source + o)
  {
    assert slices == slices[..k] + slices[k..];
    ExpandConcat(slices[..k], slices[k..]);
    CellsAt(slices[k], slices[k].len);
  }

  /** Slices laid out: each fills the tokens behind those of the slices before it. */
  lemma LaidAt(slices: seq<Slice>, tokens: seq<Placed>, ends: seq<nat>, k: nat, o: nat)
    requires Lays(slices, tokens) && k < |slices| && o < slices[k].len
    requires |ends| == |slices| + 1 && ends[0] == 0
    requires forall m | 0 <= m < |slices| :: ends[m + 1] == ends[m] + slices[m].len
    ensures |tokens| == ends[|slices|] && ends[k] + o < |tokens|
    ensures tokens[ends[k] + o] == Placed(slices[k].cache + o, slices[k].source + o)
  {
    hide Lays, Expand;
    Nonempty(slices, tokens);
    LaidLength(slices, ends, k);
    LaidLength(slices, ends, |slices|);
    assert slices[..|slices|] == slices;
    LaidBehind(slices, k, o);
  }

  /** Page a of request i holds one of its positions so far. */
  ghost predicate InUse(starts: seq<nat>, lens: seq<nat>, size: nat, i: nat, a: nat)
    requires |starts| == |lens| && size > 0 && i < |starts| && lens[i] >= 1
  {
    a <= Page(starts[i] + lens[i] - 1, size)
  }

  /** No block is in use at two places of the table. */
  ghost predicate DisjointBlocks(starts: seq<nat>, lens: seq<nat>, blocks: seq<nat>, width: nat, size: nat)
    requires Scheduled(starts, lens, blocks, width, size)
  {
    forall i, a, k, b | 0 <= i < |starts| && 0 <= k < |starts|
                        && InUse(starts, lens, size, i, a) && InUse(starts, lens, size, k, b) ::
      BlockAt(blocks, width, i, a) == BlockAt(blocks, width, k, b) ==> i == k && a == b
  }

  lemma UsedPlace(starts: seq<nat>, lens: seq<nat>, blocks: seq<nat>, width: nat, size: nat, i: nat, a: nat)
    requires Scheduled(starts, lens, blocks, width, size) && i < |starts| && InUse(starts, lens, size, i, a)
    ensures a < width && RowAt(i, width) + a < |blocks|
    ensures BlockAt(blocks, width, i, a) == blocks[RowAt(i, width) + a]
  {
    hide Page, RowAt;
  }

  lemma SameCell(x: nat, y: nat, a: nat, b: nat, size: nat)
    requires size > 0 && a < size && b < size && x * size + a == y * size + b
    ensures x == y && a == b
  {
    PageIs(x * size + a, size, x, a);
    PageIs(x * size + a, size, y, b);
  }

  lemma SamePlace(i: nat, k: nat, a: nat, b: nat, width: nat)
    requires a < width && b < width && RowAt(i, width) + a == RowAt(k, width) + b
    ensures i == k && a == b
  {
    SameCell(i, k, a, b, width);
  }

  /** A table without repeated blocks has them disjoint. */
  lemma DisjointWhen(starts: seq<nat>, lens: seq<nat>, blocks: seq<nat>, width: nat, size: nat)
    requires Scheduled(starts, lens, blocks, width, size)
    requires forall x, y | 0 <= x < y < |blocks| :: blocks[x] != blocks[y]
    ensures DisjointBlocks(starts, lens, blocks, width, size)
  {
    hide Page, RowAt, BlockAt;
    forall i, a, k, b | 0 <= i < |starts| && 0 <= k < |starts|
                        && InUse(starts, lens, size, i, a) && InUse(starts, lens, size, k, b)
                        && BlockAt(blocks, width, i, a) == BlockAt(blocks, width, k, b)
      ensures i == k && a == b
    {
      UsedPlace(starts, lens, blocks, width, size, i, a);
      UsedPlace(starts, lens, blocks, width, size, k, b);
      SamePlace(i, k, a, b, width);
    }
  }

  lemma PositionInUse(starts: seq<nat>, lens: seq<nat>, blocks: seq<nat>, width: nat, size: nat, i: nat, t: nat)
    requires Scheduled(starts, lens, blocks, width, size) && i < |starts| && t < lens[i]
    ensures InUse(starts, lens, size, i, Page(starts[i] + t, size))
            && BlockAt(blocks, width, i, Page(starts[i] + t, size)) >= 0
    ensures Page(starts[i] + t, size) * size + Offset(starts[i] + t, size) == starts[i] + t
            && Offset(starts[i] + t, size) < size
  {
    hide RowAt;
    PageMonotone(starts[i] + t, starts[i] + lens[i] - 1, size);
    PageOffset(starts[i] + t, size);
  }

  /** With disjoint blocks no two new tokens share a cell. */
  lemma DistinctCells(starts: seq<nat>, lens: seq<nat>, blocks: seq<nat>, width: nat, size: nat, i: nat, t: nat,
                      k: nat, u: nat)
    requires Scheduled(starts, lens, blocks, width, size) && DisjointBlocks(starts, lens, blocks, width, size)
    requires i < |starts| && t < lens[i] && k < |starts| && u < lens[k]
    requires CellOf(blocks, width, size, i, starts[i] + t) == CellOf(blocks, width, size, k, starts[k] + u)
    ensures i == k && t == u
  {
    hide Page, Offset, RowAt, BlockAt;
    PositionInUse(starts, lens, blocks, width, size, i, t);
    PositionInUse(starts, lens, blocks, width, size, k, u);
    var p, q := starts[i] + t, starts[k] + u;
    SameCell(BlockAt(blocks, width, i, Page(p, size)), BlockAt(blocks, width, k, Page(q, size)),
             Offset(p, size), Offset(q, size), size);
  }

  // ---- how many slices there can be ----

  lemma {:induction false} Rectangle(a: nat, b: nat)
    requires a >= 1 && b >= 1
    ensures a * b >= a + b - 1
  {
    if a > 1 {
      Rectangle(a - 1, b);
      assert a * b == (a - 1) * b + b;
    }
  }

  lemma DifferenceTimes(a: nat, b: nat, size: nat)
    requires a <= b
    ensures (b - a) * size == b * size - a * size
  {}

  lemma FewerPages(d: nat, q: nat, size: nat)
    ensures d * size < q * size ==> d < q
  {
    if q < d {
      WholePages(q, d, size);
    }
  }

  /** A request of len tokens touches at most len pages, and at most two more than it could fill. */
  lemma BlockCountBound(start: nat, len: nat, size: nat)
    requires size > 0 && len >= 1
    ensures BlockCount(start, start + len, size) <= len
    ensures BlockCount(start, start + len, size) <= 2 + Page(len, size)
  {
    hide Page, Offset;
    var end := start + len;
    PageOffset(start, size);
    PageOffset(end - 1, size);
    PageOffset(len, size);
    PageMonotone(start, end - 1, size);
    var d := Page(end - 1, size) - Page(start, size);
    DifferenceTimes(Page(start, size), Page(end - 1, size), size);
    Rectangle(len, size);
    FewerPages(d, len, size);
    DifferenceTimes(1, Page(len, size) + 1, size);
    FewerPages(d, Page(len, size) + 2, size);
    DifferenceTimes(1, Page(len, size) + 2, size);
  }

  /** Whole pages of two runs are whole pages of both together. */
  lemma FloorsAdd(a: nat, b: nat, size: nat)
    requires size > 0
    ensures Page(a, size) + Page(b, size) <= Page(a + b, size)
  {
    PageOffset(a, size);
    PageOffset(b, size);
    var whole := (Page(a, size) + Page(b, size)) * size;
    assert whole == Page(a, size) * size + Page(b, size) * size;
    PageIs(whole, size, Page(a, size) + Page(b, size), 0);
    PageMonotone(whole, a + b, size);
  }

  lemma {:induction false} SumNat(lens: seq<nat>, n: nat)
    requires n <= |lens|
    ensures Sum(lens, n) >= 0
  {
    if n > 0 {
      SumNat(lens, n - 1);
    }
  }

  lemma {:induction false} CountsBound(starts: seq<nat>, lens: seq<nat>, size: nat, n: nat)
    requires |starts| == |lens| && size > 0 && (forall i | 0 <= i < |lens| :: lens[i] >= 1) && n <= |starts|
    ensures 0 <= Sum(lens, n) && Sum(Counts(starts, lens, size), n) <= Sum(lens, n)
    ensures Sum(Counts(starts, lens, size), n) <= 2 * n + Page(Sum(lens, n), size)
  {
    hide Page, Offset, BlockCount;
    SumNat(lens, n);
    if n == 0 {
      PageIs(0, size, 0, 0);
    } else {
      CountsBound(starts, lens, size, n - 1);
      BlockCountBound(starts[n - 1], lens[n - 1], size);
      FloorsAdd(Sum(lens, n - 1), lens[n - 1], size);
    }
  }

  /** The padded number of slices a step is compiled for. */
  function PaddedNumSlices(numTokens: nat, maxReqs: nat, size: nat): int
    requires size > 0
  {
    Min(2 * maxReqs + Page(numTokens, size), numTokens)
  }

  /** However the requests start and however long they are, their slices fit the padded number. */
  lemma SlicesFit(starts: seq<nat>, lens: seq<nat>, size: nat, maxReqs: nat)
    requires |starts| == |lens| <= maxReqs && size > 0 && forall i | 0 <= i < |lens| :: lens[i] >= 1
    ensures 0 <= Sum(lens, |lens|)
    ensures Sum(Counts(starts, lens, size), |starts|) <= PaddedNumSlices(Sum(lens, |lens|), maxReqs, size)
    ensures PaddedNumSlices(Sum(lens, |lens|), maxReqs, size) <= 2 * maxReqs + Sum(lens, |lens|) / size
    ensures PaddedNumSlices(Sum(lens, |lens|), maxReqs, size) <= Sum(lens, |lens|)
  {
    CountsBound(starts, lens, size, |starts|);
  }
}
