/** The attention mask of concatenated sequences: a token sees its own segment, and nothing else. */
module SegmentMask {

  /** The lengths of the segments that are there, among the first k. */
  function Segments(lens: seq<int>, k: nat): (r: seq<nat>)
    requires k <= |lens|
    ensures forall n | 0 <= n < |r| :: r[n] > 0
  {
    if k == 0 then [] else Segments(lens, k - 1) + if lens[k - 1] > 0 then [lens[k - 1]] else []
  }

  /** Where segment n starts when the segments are laid end to end. */
  function Start(segments: seq<nat>, n: nat): nat
    requires n <= |segments|
  {
    if n == 0 then 0 else Start(segments, n - 1) + segments[n - 1]
  }

  ghost predicate In(segments: seq<nat>, n: nat, i: nat)
    requires n < |segments|
  {
    Start(segments, n) <= i < Start(segments, n) + segments[n]
  }

  /** Positions i and j belong to the same segment. */
  ghost predicate Together(segments: seq<nat>, i: nat, j: nat) {
    exists n: nat :: n < |segments| && In(segments, n, i) && In(segments, n, j)
  }

  /** What the mask should let through: one batch row holds all segments, or each segment has a row of its own. */
  ghost predicate Visible(segments: seq<nat>, batch: nat, causal: bool, b: nat, i: nat, j: nat) {
    && (causal ==> j <= i)
    && if batch == 1 then Together(segments, i, j) else b < |segments| && i < segments[b] && j < segments[b]
  }

  /** The segments fit the padded length: together in one row, or one to each row. */
  ghost predicate Fits(segments: seq<nat>, batch: nat, width: nat) {
    && batch >= 1
    && if batch == 1 then Start(segments, |segments|) <= width
       else |segments| <= batch && forall n | 0 <= n < |segments| :: segments[n] <= width
  }

  lemma {:induction false} StartGrows(segments: seq<nat>, n: nat, m: nat)
    requires n < m <= |segments|
    ensures Start(segments, n) + segments[n] <= Start(segments, m)
  {
    if n < m - 1 {
      StartGrows(segments, n, m - 1);
    }
  }

  lemma {:induction false} StartPrefix(segments: seq<nat>, more: seq<nat>, n: nat)
    requires n <= |segments|
    ensures Start(segments + more, n) == Start(segments, n)
  {
    if n > 0 {
      StartPrefix(segments, more, n - 1);
    }
  }

  lemma {:induction false} SegmentsPrefix(lens: seq<int>, k: nat, m: nat)
    requires k <= m <= |lens|
    ensures Segments(lens, k) <= Segments(lens, m)
  {
    if k < m {
      SegmentsPrefix(lens, k, m - 1);
    }
  }

  /** With segments laid end to end, a position has at most one segment, and the covered ones have one. */
  lemma {:induction false} OneSegment(segments: seq<nat>, i: nat)
    ensures forall n: nat, m: nat | n < |segments| && m < |segments| && In(segments, n, i) && In(segments, m, i) ::
            n == m
    ensures (exists n: nat :: n < |segments| && In(segments, n, i)) <==> i < Start(segments, |segments|)
  {
    forall n: nat, m: nat | n < |segments| && m < |segments| && In(segments, n, i) && In(segments, m, i)
      ensures n == m {
      if n < m {
        StartGrows(segments, n, m);
      } else if m < n {
        StartGrows(segments, m, n);
      }
    }
    if segments != [] {
      var front, last := segments[..|segments| - 1], |segments| - 1;
      assert segments == front + [segments[last]];
      forall n: nat | n <= last ensures Start(segments, n) == Start(front, n) {
        StartPrefix(front, [segments[last]], n);
      }
      OneSegment(front, i);
      if i < Start(segments, last) {
        var n: nat :| n < |front| && In(front, n, i);
        assert In(segments, n, i);
      } else if i < Start(segments, |segments|) {
        assert In(segments, last, i);
      }
      forall n: nat | n < |segments| && In(segments, n, i) ensures i < Start(segments, |segments|) {
        StartGrows(segments, n, |segments|);
      }
    }
  }

  /** Tokens that see each other form groups, and padding sees nothing: not even itself. */
  lemma Groups(segments: seq<nat>, i: nat, j: nat, k: nat)
    ensures Together(segments, i, i) <==> i < Start(segments, |segments|)
    ensures Together(segments, i, j) ==> Together(segments, j, i)
    ensures Together(segments, i, j) && Together(segments, j, k) ==> Together(segments, i, k)
  {
    OneSegment(segments, i);
    OneSegment(segments, j);
  }

  /** One more segment behind the others adds the pairs of its own positions. */
  lemma MorePairs(segments: seq<nat>, len: nat, i: nat, j: nat)
    ensures var start := Start(segments, |segments|);
            Together(segments + [len], i, j) <==>
            Together(segments, i, j) || (start <= i < start + len && start <= j < start + len)
  {
    var all := segments + [len];
    forall n: nat | n <= |segments| ensures Start(all, n) == Start(segments, n) {
      StartPrefix(segments, [len], n);
    }
    if Together(segments, i, j) {
      var n: nat :| n < |segments| && In(segments, n, i) && In(segments, n, j);
      assert In(all, n, i) && In(all, n, j);
    }
    var start := Start(segments, |segments|);
    if start <= i < start + len && start <= j < start + len {
      assert In(all, |segments|, i) && In(all, |segments|, j);
    }
    if Together(all, i, j) {
      var n: nat :| n < |all| && In(all, n, i) && In(all, n, j);
      if n < |segments| {
        assert In(segments, n, i) && In(segments, n, j);
      }
    }
  }

  /** What the first segments have let through so far. */
  ghost predicate Masked(mask: array3<bool>, segments: seq<nat>, batch: nat, width: nat, causal: bool)
    reads mask
  {
    && mask.Length0 == batch && mask.Length1 == width && mask.Length2 == width
    && forall b: nat, i: nat, j: nat | b < batch && i < width && j < width ::
         mask[b, i, j] <==> Visible(segments, batch, causal, b, i, j)
  }

  /** Open the square of one segment. */
  method OpenSquare(mask: array3<bool>, row: nat, start: nat, end: nat, causal: bool)
    requires row < mask.Length0 && start <= end <= mask.Length1 && end <= mask.Length2
    modifies mask
    ensures forall b, i, j | 0 <= b < mask.Length0 && 0 <= i < mask.Length1 && 0 <= j < mask.Length2 ::
              mask[b, i, j] == if b == row && start <= i < end && start <= j < end then !causal || j <= i
                else old(mask[b, i, j])
  {
    forall i, j | start <= i < end && start <= j < end {
      mask[row, i, j] := !causal || j <= i;
    }
  }

  lemma SquareIsNext(segments: seq<nat>, len: nat, batch: nat, causal: bool, b: nat, i: nat, j: nat)
    requires batch >= 1 && b < batch
    ensures var start, row := if batch == 1 then Start(segments, |segments|) else 0,
                               if batch == 1 then 0 else |segments|;
            Visible(segments + [len], batch, causal, b, i, j)
            <==> (Visible(segments, batch, causal, b, i, j)
                  || (b == row && start <= i < start + len && start <= j < start + len && (causal ==> j <= i)))
  {
    if batch == 1 {
      MorePairs(segments, len, i, j);
    }
  }

  lemma StartTotal(all: seq<nat>, n: nat)
    requires n < |all|
    ensures Start(all, n) + all[n] <= Start(all, |all|)
  {
    StartGrows(all, n, |all|);
  }

  lemma NextFits(segments: seq<nat>, len: nat, all: seq<nat>, batch: nat, width: nat)
    requires segments + [len] <= all && Fits(all, batch, width)
    ensures var start, row := if batch == 1 then Start(segments, |segments|) else 0,
                               if batch == 1 then 0 else |segments|;
            row < batch && start + len <= width
    ensures Start(segments + [len], |segments| + 1) == Start(segments, |segments|) + len
  {
    StartPrefix(segments, [len], |segments|);
    if batch == 1 {
      var n := |segments|;
      assert all == segments + all[n..] && all[n] == (segments + [len])[n];
      StartPrefix(segments, all[n..], n);
      StartTotal(all, n);
    } else {
      assert all[|segments|] == (segments + [len])[|segments|];
    }
  }

  /** The squares already open stay open, and the new one does not overlap them. */
  lemma Disjoint(segments: seq<nat>, batch: nat, b: nat, i: nat, j: nat)
    requires batch >= 1
    ensures var start, row := if batch == 1 then Start(segments, |segments|) else 0,
                               if batch == 1 then 0 else |segments|;
            b == row && i >= start ==> !Visible(segments, batch, false, b, i, j)
  {
    OneSegment(segments, i);
  }

  /** A mask that lets nothing through. */
  method Blocked(batch: nat, width: nat, causal: bool) returns (mask: array3<bool>)
    ensures fresh(mask) && Masked(mask, [], batch, width, causal)
  {
    mask := new bool[batch, width, width]((b, i, j) => false);
  }

  /** Opening the next square makes exactly the pairs of the next segment visible. */
  lemma OpenedIsVisible(segments: seq<nat>, len: nat, batch: nat, causal: bool, b: nat, i: nat, j: nat, before: bool)
    requires batch >= 1 && b < batch && before == Visible(segments, batch, causal, b, i, j)
    ensures var start, row := if batch == 1 then Start(segments, |segments|) else 0,
                               if batch == 1 then 0 else |segments|;
            (if b == row && start <= i < start + len && start <= j < start + len then !causal || j <= i else before)
            == Visible(segments + [len], batch, causal, b, i, j)
  {
    SquareIsNext(segments, len, batch, causal, b, i, j);
    Disjoint(segments, batch, b, i, j);
  }

  /** Open the square of the next segment. */
  method OpenNext(mask: array3<bool>, row: nat, start: nat, len: nat, causal: bool,
                  ghost segments: seq<nat>, batch: nat, width: nat)
    requires Masked(mask, segments, batch, width, causal) && batch >= 1 && row < batch && start + len <= width
    requires start == if batch == 1 then Start(segments, |segments|) else 0
    requires row == if batch == 1 then 0 else |segments|
    modifies mask
    ensures Masked(mask, segments + [len], batch, width, causal)
  {
    hide Visible, Start;
    label Before:
    OpenSquare(mask, row, start, start + len, causal);
    forall b: nat, i: nat, j: nat | b < batch && i < width && j < width
      ensures mask[b, i, j] <==> Visible(segments + [len], batch, causal, b, i, j)
    {
      OpenedIsVisible(segments, len, batch, causal, b, i, j, old@Before(mask[b, i, j]));
    }
  }

  lemma StartsAtZero()
    ensures Start([], 0) == 0
  {}

  /** An entry that is there has its segment behind those of the entries before it. */
  lemma SegmentOf(lens: seq<int>, k: nat)
    requires k < |lens| && lens[k] > 0
    ensures var all, n := Segments(lens, |lens|), |Segments(lens, k)|;
            n < |all| && all[n] == lens[k] && Start(all, n) == Start(Segments(lens, k), n)
  {
    var all, before := Segments(lens, |lens|), Segments(lens, k);
    SegmentsPrefix(lens, k + 1, |lens|);
    assert Segments(lens, k + 1) == before + [lens[k]];
    assert all == before + [lens[k]] + all[|before| + 1..] == before + all[|before|..];
    StartPrefix(before, all[|before|..], |before|);
  }

  /** What a position of segment n sees. */
  lemma OwnSegment(segments: seq<nat>, n: nat, i: nat, j: nat)
    requires n < |segments| && In(segments, n, i)
    ensures Together(segments, i, j) <==> In(segments, n, j)
  {
    OneSegment(segments, i);
  }

  /** Entry k of the lengths in the finished mask. */
  lemma EntrySees(lens: seq<int>, width: nat, batch: nat, causal: bool, k: nat, i: nat, j: nat)
    requires k < |lens| && lens[k] > 0 && batch >= 1
    ensures var n := |Segments(lens, k)|;
            var start, end := Start(Segments(lens, k), n), Start(Segments(lens, k), n) + lens[k];
            && (batch == 1 && start <= i < end ==>
                  (Visible(Segments(lens, |lens|), 1, causal, 0, i, j)
                   <==> start <= j < end && (causal ==> j <= i)))
            && (batch > 1 ==>
                  (Visible(Segments(lens, |lens|), batch, causal, n, i, j)
                   <==> i < lens[k] && j < lens[k] && (causal ==> j <= i)))
  {
    SegmentOf(lens, k);
    if In(Segments(lens, |lens|), |Segments(lens, k)|, i) {
      OwnSegment(Segments(lens, |lens|), |Segments(lens, k)|, i, j);
    }
  }

  /** The offsets in front of the first k entries. */
  ghost predicate Offsets(lens: seq<int>, starts: seq<nat>, rows: seq<nat>, k: nat) {
    && k <= |lens| && |starts| == |rows| == k + 1
    && forall m | 0 <= m <= k ::
         starts[m] == Start(Segments(lens, m), |Segments(lens, m)|) && rows[m] == |Segments(lens, m)|
  }

  lemma OffsetsNext(lens: seq<int>, starts: seq<nat>, rows: seq<nat>, k: nat)
    requires Offsets(lens, starts, rows, k) && k < |lens|
    ensures Offsets(lens, starts + [starts[k] + if lens[k] > 0 then lens[k] else 0],
                    rows + [rows[k] + if lens[k] > 0 then 1 else 0], k + 1)
  {
    if lens[k] > 0 {
      assert Segments(lens, k + 1) == Segments(lens, k) + [lens[k]];
      StartPrefix(Segments(lens, k), [lens[k]], |Segments(lens, k)|);
    } else {
      assert Segments(lens, k + 1) == Segments(lens, k);
    }
  }

  lemma OffsetsAdd(lens: seq<int>, starts: seq<nat>, rows: seq<nat>, m: nat)
    requires Offsets(lens, starts, rows, |lens|) && m < |lens|
    ensures starts[m + 1] == starts[m] + if lens[m] > 0 then lens[m] else 0
    ensures rows[m + 1] == rows[m] + if lens[m] > 0 then 1 else 0
  {
    OffsetsNext(lens, starts[..m + 1], rows[..m + 1], m);
  }

  /** Behind the last segment nothing is visible. */
  lemma PaddingSeesNothing(lens: seq<int>, batch: nat, causal: bool, b: nat, i: nat, j: nat)
    requires batch >= 1
    ensures var segments := Segments(lens, |lens|);
            && (batch == 1 && i >= Start(segments, |segments|) ==> !Visible(segments, 1, causal, b, i, j))
            && (batch > 1 && b >= |segments| ==> !Visible(segments, batch, causal, b, i, j))
  {
    OneSegment(Segments(lens, |lens|), i);
  }

  lemma SegmentsNext(lens: seq<int>, k: nat)
    requires k < |lens|
    ensures Segments(lens, k + 1) == Segments(lens, k) + if lens[k] > 0 then [lens[k]] else []
  {}

  lemma NoOffsets(lens: seq<int>)
    ensures Segments(lens, 0) == [] && Offsets(lens, [0], [0], 0)
  {}

  /** The running sums, said of the lengths. */
  lemma OffsetsSpelled(lens: seq<int>, starts: seq<nat>, rows: seq<nat>)
    requires Offsets(lens, starts, rows, |lens|)
    ensures starts[0] == rows[0] == 0
    ensures forall k | 0 <= k < |lens| ::
              && starts[k + 1] == starts[k] + (if lens[k] > 0 then lens[k] else 0)
              && rows[k + 1] == rows[k] + (if lens[k] > 0 then 1 else 0)
  {
    hide Segments, Start;
    NoOffsets(lens);
    StartsAtZero();
    forall k | 0 <= k < |lens|
      ensures starts[k + 1] == starts[k] + (if lens[k] > 0 then lens[k] else 0)
      ensures rows[k + 1] == rows[k] + (if lens[k] > 0 then 1 else 0)
    {
      OffsetsAdd(lens, starts, rows, k);
    }
  }

  lemma RowsFit(lens: seq<int>, batch: nat, width: nat)
    requires batch > 1 && Fits(Segments(lens, |lens|), batch, width)
    ensures |Segments(lens, |lens|)| <= batch
  {}

  /** The finished mask of one row, said of the lengths and their running sums. */
  lemma OneRowSpelled(mask: array3<bool>, lens: seq<int>, width: nat, causal: bool, starts: seq<nat>, rows: seq<nat>)
    requires Masked(mask, Segments(lens, |lens|), 1, width, causal) && Offsets(lens, starts, rows, |lens|)
    ensures forall k, i: nat, j: nat | 0 <= k < |lens| && starts[k] <= i < starts[k + 1] && i < width && j < width ::
              mask[0, i, j] <==> starts[k] <= j < starts[k + 1] && (causal ==> j <= i)
    ensures forall i, j: nat | starts[|lens|] <= i < width && j < width :: !mask[0, i, j]
  {
    hide Visible, Segments, Start;
    OffsetsSpelled(lens, starts, rows);
    forall k, i: nat, j: nat | 0 <= k < |lens| && starts[k] <= i < starts[k + 1] && i < width && j < width
      ensures mask[0, i, j] <==> starts[k] <= j < starts[k + 1] && (causal ==> j <= i)
    {
      EntrySees(lens, width, 1, causal, k, i, j);
    }
    forall i, j: nat | starts[|lens|] <= i < width && j < width ensures !mask[0, i, j] {
      PaddingSeesNothing(lens, 1, causal, 0, i, j);
    }
  }

  /** The finished mask of a row per entry, said of the lengths alone. */
  lemma OwnRowsSpelled(mask: array3<bool>, lens: seq<int>, width: nat, batch: nat, causal: bool, starts: seq<nat>,
                       rows: seq<nat>)
    requires batch > 1 && Masked(mask, Segments(lens, |lens|), batch, width, causal)
    requires Offsets(lens, starts, rows, |lens|)
    ensures forall k, i: nat, j: nat |
              0 <= k < |lens| && lens[k] > 0 && rows[k] < batch && i < width && j < width ::
              mask[rows[k], i, j] <==> i < lens[k] && j < lens[k] && (causal ==> j <= i)
    ensures forall b, i: nat, j: nat | rows[|lens|] <= b < batch && i < width && j < width :: !mask[b, i, j]
  {
    hide Visible, Segments, Start;
    forall k, i: nat, j: nat | 0 <= k < |lens| && lens[k] > 0 && rows[k] < batch && i < width && j < width
      ensures mask[rows[k], i, j] <==> i < lens[k] && j < lens[k] && (causal ==> j <= i)
    {
      EntrySees(lens, width, batch, causal, k, i, j);
      assert mask[rows[k], i, j] <==> Visible(Segments(lens, |lens|), batch, causal, rows[k], i, j);
    }
    forall b, i: nat, j: nat | rows[|lens|] <= b < batch && i < width && j < width ensures !mask[b, i, j] {
      PaddingSeesNothing(lens, batch, causal, b, i, j);
    }
  }

  /** The mask, with a running offset: true where attention is allowed. Entry k's tokens stand behind those of the
      entries before it, or in a row of their own; they see one another, and nothing else. */
  method GenerateAttnMask(lens: seq<int>, width: nat, batch: nat, causal: bool)
    returns (mask: array3<bool>, ghost starts: seq<nat>, ghost rows: seq<nat>)
    requires batch >= 1 && Fits(Segments(lens, |lens|), batch, width)
    ensures Masked(mask, Segments(lens, |lens|), batch, width, causal)
    ensures mask.Length0 == batch && mask.Length1 == mask.Length2 == width
    ensures |starts| == |rows| == |lens| + 1 && starts[0] == rows[0] == 0
    ensures forall k | 0 <= k < |lens| ::
              && starts[k + 1] == starts[k] + (if lens[k] > 0 then lens[k] else 0)
              && rows[k + 1] == rows[k] + (if lens[k] > 0 then 1 else 0)
    ensures batch > 1 ==> rows[|lens|] <= batch
    ensures batch == 1 ==>
              && (forall k, i: nat, j: nat |
                    0 <= k < |lens| && starts[k] <= i < starts[k + 1] && i < width && j < width ::
                    mask[0, i, j] <==> starts[k] <= j < starts[k + 1] && (causal ==> j <= i))
              && (forall i, j: nat | starts[|lens|] <= i < width && j < width :: !mask[0, i, j])
    ensures batch > 1 ==>
              && (forall k, i: nat, j: nat |
                    0 <= k < |lens| && lens[k] > 0 && rows[k] < batch && i < width && j < width ::
                    mask[rows[k], i, j] <==> i < lens[k] && j < lens[k] && (causal ==> j <= i))
              && (forall b, i: nat, j: nat | rows[|lens|] <= b < batch && i < width && j < width :: !mask[b, i, j])
  {
    hide Start, Fits, Masked, Segments, Visible;
    starts, rows := [0], [0];
    mask := Blocked(batch, width, causal);
    StartsAtZero();
    NoOffsets(lens);
    var validPos, batchIdx := 0, 0;
    for k := 0 to |lens|
      invariant fresh(mask) && Masked(mask, Segments(lens, k), batch, width, causal)
      invariant validPos == if batch == 1 then Start(Segments(lens, k), |Segments(lens, k)|) else 0
      invariant batchIdx == if batch == 1 then 0 else |Segments(lens, k)|
      invariant Offsets(lens, starts, rows, k)
    {
      ghost var segments := Segments(lens, k);
      OffsetsNext(lens, starts, rows, k);
      SegmentsNext(lens, k);
      starts := starts + [starts[k] + if lens[k] > 0 then lens[k] else 0];
      rows := rows + [rows[k] + if lens[k] > 0 then 1 else 0];
      if lens[k] <= 0 {
        assert Segments(lens, k + 1) == segments;
        continue;
      }
      SegmentsPrefix(lens, k + 1, |lens|);
      NextFits(segments, lens[k], Segments(lens, |lens|), batch, width);
      OpenNext(mask, batchIdx, validPos, lens[k], causal, segments, batch, width);
      if batch > 1 {
        batchIdx := batchIdx + 1;
        validPos := 0;
      } else {
        validPos := validPos + lens[k];
      }
    }
    OffsetsSpelled(lens, starts, rows);
    if batch == 1 {
      OneRowSpelled(mask, lens, width, causal, starts, rows);
    } else {
      RowsFit(lens, batch, width);
      OwnRowsSpelled(mask, lens, width, batch, causal, starts, rows);
    }
  }
}
