/** Window assignment, with Go's truncating division. */
module WindowAssign {
  import opened Prelude

  /** A time range [start, end). */
  datatype Win = Win(start: int, end: int) {
    predicate Contains(ts: int) { start <= ts < end }
    predicate Overlaps(w: Win) { start < w.end && w.start < end }
  }

  function TruncDiv(a: int, b: int): int
    requires b > 0
  {
    if a >= 0 then a / b else -((-a) / b)
  }

  /**
    The start of the slot of `ts`, in int64 arithmetic; truncation makes it the slot's upper end for
    a time before the offset. The product is no larger than the difference, so it does not overflow.
   */
  function WindowStart(ts: int, size: int, offset: int): int
    requires size > 0
  {
    UnixNano(TruncDiv(UnixNano(UnixNano(ts) - offset), size) * size + offset)
  }

  predicate Aligned(start: int, slide: int, offset: int)
    requires slide > 0
  {
    (start - offset) % slide == 0
  }

  function Tumbling(ts: int, size: int, offset: int): seq<Win>
    requires size > 0
  {
    var start := WindowStart(ts, size, offset);
    [Win(start, start + size)]
  }

  function Session(ts: int, gap: int): seq<Win> {
    [Win(ts, ts + gap)]
  }

  /** Two sessions merged into their hull when they overlap. */
  method MergeSessions(a: Win, b: Win) returns (r: seq<Win>)
    ensures if a.Overlaps(b) then |r| == 1 && (forall t :: a.Contains(t) || b.Contains(t) ==> r[0].Contains(t))
                               && (a.start <= a.end && b.start <= b.end ==>
                                     forall t :: r[0].Contains(t) ==> a.Contains(t) || b.Contains(t))
            else r == [a, b]
  {
    if a.end > b.start && a.start < b.end {
      var start := a.start;
      if b.start < start { start := b.start; }
      var end := a.end;
      if b.end > end { end := b.end; }
      return [Win(start, end)];
    }
    return [a, b];
  }

  // ---- Arithmetic -------------------------------------------------------------------

  lemma DivBounds(a: int, s: int)
    requires s > 0
    ensures 0 <= a - (a / s) * s < s
  {
  }

  lemma ModUnique(a: int, s: int, q: int)
    requires s > 0 && 0 <= a - q * s < s
    ensures a / s == q && a % s == a - q * s
  {
    DivBounds(a, s);
    if q < a / s {
      MulStep(q, a / s, s);
    } else if q > a / s {
      MulStep(a / s, q, s);
    }
  }

  lemma MulStep(p: int, q: int, s: int)
    requires s > 0 && p < q
    ensures p * s + s <= q * s
  {
    assert (p + 1) * s <= q * s;
  }

  lemma ModMultiple(q: int, s: int)
    requires s > 0
    ensures (q * s) % s == 0
  {
    ModUnique(q * s, s, q);
  }

  lemma ModShift(a: int, s: int)
    requires s > 0
    ensures (a - s) % s == a % s && (a + s) % s == a % s
  {
    DivBounds(a, s);
    ModUnique(a - s, s, a / s - 1);
    ModUnique(a + s, s, a / s + 1);
    ModUnique(a, s, a / s);
  }

  /** Aligned starts lie at least a slide apart. */
  lemma Apart(a: int, b: int, s: int)
    requires s > 0 && a % s == 0 && b % s == 0 && a <= b < a + s
    ensures a == b
  {
    ModUnique(b, s, a / s);
  }

  /** Truncation goes toward zero, by less than the divisor. */
  lemma TruncBounds(a: int, size: int)
    requires size > 0
    ensures var p := TruncDiv(a, size) * size; p % size == 0 && if a >= 0 then 0 <= p <= a < p + size else p - size < a <= p <= 0
  {
    var q := TruncDiv(a, size);
    ModMultiple(q, size);
    if a >= 0 {
      TruncPositive(a, size, q);
    } else {
      TruncPositive(-a, size, -q);
      assert (-q) * size == -(q * size);
    }
  }

  lemma TruncPositive(a: int, size: int, q: int)
    requires size > 0 && a >= 0 && q == a / size
    ensures 0 <= q * size <= a < q * size + size
  {
    DivBounds(a, size);
    assert q >= 0;
  }

  /** Without an overflow the start is an aligned one, next to the int64 form of the timestamp. */
  lemma StartAligned(ts: int, size: int, offset: int)
    requires size > 0 && Fits(offset) && Fits(UnixNano(ts) - offset)
    ensures Aligned(WindowStart(ts, size, offset), size, offset)
    ensures UnixNano(ts) >= offset ==> WindowStart(ts, size, offset) <= UnixNano(ts) < WindowStart(ts, size, offset) + size
    ensures UnixNano(ts) < offset ==> WindowStart(ts, size, offset) - size < UnixNano(ts) <= WindowStart(ts, size, offset)
  {
    TruncBounds(UnixNano(ts) - offset, size);
  }

  // ---- Tumbling ----------------------------------------------------------------------

  /** How far the timestamp is past the start of its slot; negative before the offset. */
  function Past(ts: int, size: int, offset: int): int
    requires size > 0
  {
    var d := UnixNano(UnixNano(ts) - offset);
    d - TruncDiv(d, size) * size
  }

  /** The start of the slot next to the timestamp's nanoseconds, before it is stored in an int64. */
  function SlotStart(ts: int, size: int, offset: int): int
    requires size > 0
  {
    UnixNano(ts) - Past(ts, size, offset)
  }

  lemma StartIsSlot(ts: int, size: int, offset: int)
    requires size > 0
    ensures WindowStart(ts, size, offset) == UnixNano(SlotStart(ts, size, offset))
  {
    var n := UnixNano(ts);
    WholeTurns(n - offset);
    StoredAlike(n, offset, UnixNano(n - offset), Past(ts, size, offset));
  }

  lemma StoredAlike(n: int, offset: int, d: int, past: int)
    requires (n - offset - d) % 0x1_0000_0000_0000_0000 == 0
    ensures UnixNano(d - past + offset) == UnixNano(n - past)
  {
    SameTurn(n - past, d - past + offset);
  }

  /**
    The tumbling window starts at the slot of the timestamp's nanoseconds, less than the size away. It
    ends after them if and only if the slot does not start beyond the int64 range, and contains them if
    and only if the slot starts within that range and not after them. When timestamp and offset do not
    overflow, it is aligned, ends after them, and contains them unless they are before the offset and
    not on a boundary.
   */
  lemma TumblingExact(ts: int, size: int, offset: int)
    requires 0 < size <= MAX_NANOS
    ensures var w, n, slot := Tumbling(ts, size, offset)[0], UnixNano(ts), SlotStart(ts, size, offset);
            && w.start == UnixNano(slot) && w.end == w.start + size && slot - size < n < slot + size
            && (n < w.end <==> slot <= MAX_NANOS)
            && (w.Contains(n) <==> Fits(slot) && slot <= n)
    ensures var w, n := Tumbling(ts, size, offset)[0], UnixNano(ts);
            Fits(offset) && Fits(n - offset) ==>
              && Aligned(w.start, size, offset) && n < w.end
              && (w.Contains(n) <==> n >= offset || (n - offset) % size == 0)
  {
    var n, slot := UnixNano(ts), SlotStart(ts, size, offset);
    StartIsSlot(ts, size, offset);
    TruncBounds(UnixNano(n - offset), size);
    SlotStored(n, slot, size);
    if Fits(offset) && Fits(n - offset) {
      TumblingAligned(ts, size, offset);
    }
  }

  lemma SlotStored(n: int, slot: int, size: int)
    requires 0 < size <= MAX_NANOS && Fits(n) && slot - size < n < slot + size
    ensures n < UnixNano(slot) + size <==> slot <= MAX_NANOS
    ensures UnixNano(slot) <= n < UnixNano(slot) + size <==> Fits(slot) && slot <= n
  {
    if slot > MAX_NANOS {
      WrapsOnce(slot);
    } else if slot < MIN_NANOS {
      WrapsUp(slot);
    }
  }

  lemma TumblingAligned(ts: int, size: int, offset: int)
    requires size > 0 && Fits(offset) && Fits(UnixNano(ts) - offset)
    ensures var w, n := Tumbling(ts, size, offset)[0], UnixNano(ts);
            && Aligned(w.start, size, offset) && n < w.end
            && (w.Contains(n) <==> n >= offset || (n - offset) % size == 0)
  {
    StartAligned(ts, size, offset);
    var start, n := WindowStart(ts, size, offset), UnixNano(ts);
    if n < offset {
      if start == n {
        assert (n - offset) % size == 0;
      } else if (n - offset) % size == 0 {
        Apart(n - offset, start - offset, size);
      }
    }
  }

  // ---- Sliding ------------------------------------------------------------------------

  /** The starts of a sliding assigner's windows. */
  ghost function Starts(slide: int, offset: int): iset<int>
    requires slide > 0
  {
    iset t: int | Aligned(t, slide, offset)
  }

  /** Every start has one a slide before and one a slide after it, and none in between. */
  ghost predicate Grid(grid: iset<int>, slide: int) {
    && (forall t :: t in grid ==> t - slide in grid)
    && (forall t :: t in grid ==> t + slide in grid)
    && (forall t, u :: t in grid && u in grid && t - slide < u <= t ==> u == t)
  }

  lemma StartsGrid(slide: int, offset: int)
    requires slide > 0
    ensures Grid(Starts(slide, offset), slide)
  {
    forall t | t in Starts(slide, offset) ensures t - slide in Starts(slide, offset) {
      ModShift(t - offset, slide);
    }
    forall t | t in Starts(slide, offset) ensures t + slide in Starts(slide, offset) {
      ModShift(t - offset, slide);
    }
    forall t, u | t in Starts(slide, offset) && u in Starts(slide, offset) && t - slide < u <= t ensures u == t {
      Apart(u - offset, t - offset, slide);
    }
  }

  /** `w` is a window of the grid that contains `ts`. */
  ghost predicate Covers(w: Win, ts: int, size: int, grid: iset<int>) {
    w.end == w.start + size && w.Contains(ts) && w.start in grid
  }

  predicate LatestFirst(ws: seq<Win>) { forall i, j :: 0 <= i < j < |ws| ==> ws[i].start > ws[j].start }

  predicate EarliestFirst(ws: seq<Win>) { forall i, j :: 0 <= i < j < |ws| ==> ws[i].start < ws[j].start }

  /** `ws` lists, latest first, exactly the windows that contain `ts` and start after `start` and not after `last`. */
  ghost predicate CoverAfter(ws: seq<Win>, start: int, last: int, ts: int, size: int, grid: iset<int>) {
    && (forall i :: 0 <= i < |ws| ==> Covers(ws[i], ts, size, grid) && start < ws[i].start <= last)
    && (forall w :: Covers(w, ts, size, grid) && start < w.start <= last ==> w in ws)
    && LatestFirst(ws)
  }

  /** `ws` lists, earliest first, exactly the windows that contain `ts` and start before `start` and after `last`. */
  ghost predicate CoverBefore(ws: seq<Win>, start: int, last: int, ts: int, size: int, grid: iset<int>) {
    && (forall i :: 0 <= i < |ws| ==> Covers(ws[i], ts, size, grid) && last < ws[i].start < start)
    && (forall w :: Covers(w, ts, size, grid) && last < w.start < start ==> w in ws)
    && EarliestFirst(ws)
  }

  /** `ws` lists exactly the windows that contain `ts`, each once. */
  ghost predicate ExactCover(ws: seq<Win>, ts: int, size: int, grid: iset<int>) {
    (forall w :: w in ws <==> Covers(w, ts, size, grid)) && NoDup(ws)
  }

  /** `n` slides. */
  function Span(n: nat, slide: int): int {
    if n == 0 then 0 else Span(n - 1, slide) + slide
  }

  lemma {:induction false} SpanTimes(n: nat, slide: int)
    ensures Span(n, slide) == n * slide
  {
    if n > 0 {
      SpanTimes(n - 1, slide);
    }
  }

  lemma CoverStep(ws: seq<Win>, start: int, last: int, ts: int, size: int, slide: int, grid: iset<int>)
    requires slide > 0 && Grid(grid, slide) && CoverAfter(ws, start, last, ts, size, grid) && start in grid && start + size > ts
    requires start <= last
    ensures start - slide in grid
    ensures start <= ts ==> CoverAfter(ws + [Win(start, start + size)], start - slide, last, ts, size, grid)
    ensures start > ts ==> CoverAfter(ws, start - slide, last, ts, size, grid)
  {
    forall w | Covers(w, ts, size, grid) && start - slide < w.start <= last
      ensures w in ws || (start <= ts && w == Win(start, start + size)) {
      if w.start <= start {
        assert w.start == start;
      }
    }
  }

  lemma AheadStep(ws: seq<Win>, start: int, last: int, ts: int, size: int, slide: int, grid: iset<int>)
    requires slide > 0 && Grid(grid, slide) && CoverBefore(ws, start, last, ts, size, grid) && start in grid && last < start
    ensures start + slide in grid
    ensures start <= ts < start + size ==> CoverBefore(ws + [Win(start, start + size)], start + slide, last, ts, size, grid)
    ensures !(start <= ts < start + size) ==> CoverBefore(ws, start + slide, last, ts, size, grid)
  {
    forall w | Covers(w, ts, size, grid) && last < w.start < start + slide
      ensures w in ws || (start <= ts < start + size && w == Win(start, start + size)) {
      if w.start >= start {
        assert start + slide - slide <= w.start <= start + slide;
        assert w.start - slide in grid;
        assert w.start == start;
      }
    }
  }

  /** A start after `ts` is at least a slide after the last start not after it. */
  lemma AfterFloor(ts: int, slide: int, grid: iset<int>, floor: int, start: int)
    requires slide > 0 && Grid(grid, slide) && floor in grid && start in grid && floor <= ts < floor + slide
    ensures start > ts <==> start >= floor + slide
    ensures ts < start <= ts + slide ==> start == floor + slide
    ensures start <= ts ==> start <= floor
  {
    assert floor + slide in grid && start - slide in grid;
    assert floor < start <= floor + slide ==> start == floor + slide;
    assert floor < start - slide <= floor + slide ==> start - slide == floor + slide;
  }

  /** The first loop: back from `last` until a window ends at or before `ts`; `floor` is the last start not after `ts`. */
  method WalkBack(ts: int, size: int, slide: int, last: int, ghost grid: iset<int>, ghost floor: int)
    returns (windows: seq<Win>)
    requires slide > 0 && Grid(grid, slide) && last in grid && floor in grid && floor <= ts < floor + slide
    ensures CoverAfter(windows, ts - size, last, ts, size, grid)
    ensures last >= floor ==> (windows != [] <==> ts < floor + size)
    ensures last >= floor && windows != [] ==> Span(|windows| - 1, slide) < size - (ts - floor) <= Span(|windows|, slide)
  {
    windows := [];
    var start := last;
    while start + size > ts
      invariant start in grid && start <= last && CoverAfter(windows, start, last, ts, size, grid)
      invariant last >= floor ==> if start <= ts then floor - start == Span(|windows|, slide) else windows == []
      invariant windows != [] ==> start <= ts && start + slide + size > ts
      decreases start + size - ts
    {
      CoverStep(windows, start, last, ts, size, slide, grid);
      AfterFloor(ts, slide, grid, floor, start);
      AfterFloor(ts, slide, grid, floor, start - slide);
      if start <= ts {
        windows := windows + [Win(start, start + size)];
      }
      start := start - slide;
    }
    AfterFloor(ts, slide, grid, floor, start);
    BackDone(windows, start, last, ts, size, grid);
    assert last >= floor && ts < floor + size ==> Covers(Win(floor, floor + size), ts, size, grid);
    if windows != [] {
      assert Covers(windows[0], ts, size, grid);
      AfterFloor(ts, slide, grid, floor, windows[0].start);
    }
  }

  lemma BackDone(ws: seq<Win>, start: int, last: int, ts: int, size: int, grid: iset<int>)
    requires CoverAfter(ws, start, last, ts, size, grid) && start + size <= ts
    ensures CoverAfter(ws, ts - size, last, ts, size, grid)
  {
  }

  /** The second loop: ahead from behind `last` until a window starts a size or more after `ts`. */
  method WalkAhead(ts: int, size: int, slide: int, last: int, ghost grid: iset<int>) returns (windows: seq<Win>)
    requires slide > 0 && Grid(grid, slide) && last in grid
    ensures CoverBefore(windows, ts + 1, last, ts, size, grid)
  {
    windows := [];
    var start := last + slide;
    while start < ts + size
      invariant start in grid && start > last && CoverBefore(windows, start, last, ts, size, grid)
      decreases ts + size - start
    {
      AheadStep(windows, start, last, ts, size, slide, grid);
      if start <= ts && start + size > ts {
        windows := windows + [Win(start, start + size)];
      }
      start := start + slide;
    }
    AheadDone(windows, start, last, ts, size, grid);
  }

  lemma AheadDone(ws: seq<Win>, start: int, last: int, ts: int, size: int, grid: iset<int>)
    requires CoverBefore(ws, start, last, ts, size, grid) && start >= ts + size
    ensures CoverBefore(ws, ts + 1, last, ts, size, grid)
  {
  }

  /** Both loops together find every window that contains `ts`, once. */
  lemma BackAndAhead(back: seq<Win>, ahead: seq<Win>, last: int, ts: int, size: int, grid: iset<int>)
    requires CoverAfter(back, ts - size, last, ts, size, grid) && CoverBefore(ahead, ts + 1, last, ts, size, grid)
    ensures ExactCover(back + ahead, ts, size, grid)
  {
    var ws := back + ahead;
    forall w ensures w in ws <==> Covers(w, ts, size, grid) {
    }
    forall i, j | 0 <= i < j < |ws| ensures ws[i] != ws[j] {
      if i < |back| <= j {
        assert ws[j] == ahead[j - |back|];
      }
    }
  }

  /** How far `ts` is into its slide. */
  function Into(ts: int, slide: int, offset: int): int
    requires slide > 0
  {
    (ts - offset) % slide
  }

  lemma FloorAligned(ts: int, slide: int, offset: int)
    requires slide > 0
    ensures 0 <= Into(ts, slide, offset) < slide && Aligned(ts - Into(ts, slide, offset), slide, offset)
  {
    var a := ts - offset;
    DivBounds(a, slide);
    ModUnique(a, slide, a / slide);
    ModMultiple(a / slide, slide);
  }

  /** Without an overflow the slots of a sliding assigner are those of its offset, and `ts` is next to its own. */
  lemma SlidingGrid(ts: int, slide: int, offset: int)
    requires slide > 0 && Fits(ts) && Fits(offset) && Fits(ts - offset)
    ensures var last := WindowStart(ts, slide, offset);
            && last + slide > ts && (ts >= offset ==> last <= ts)
            && Starts(slide, last) == Starts(slide, offset) && Into(ts, slide, last) == Into(ts, slide, offset)
  {
    StartAligned(ts, slide, offset);
    SameGrid(ts, slide, offset, WindowStart(ts, slide, offset));
  }

  lemma SameGrid(ts: int, slide: int, offset: int, last: int)
    requires slide > 0 && Aligned(last, slide, offset)
    ensures Starts(slide, last) == Starts(slide, offset) && Into(ts, slide, last) == Into(ts, slide, offset)
  {
    forall t ensures t in Starts(slide, last) <==> t in Starts(slide, offset) {
      ModAdd(t - last, last - offset, slide);
    }
    ModAdd(ts - last, last - offset, slide);
  }

  lemma ModAdd(a: int, b: int, s: int)
    requires s > 0 && b % s == 0
    ensures (a + b) % s == a % s
  {
    DivBounds(a, s);
    ModUnique(a, s, a / s);
    DivBounds(b, s);
    ModUnique(b, s, b / s);
    assert (a / s + b / s) * s == (a / s) * s + (b / s) * s;
    ModUnique(a + b, s, a / s + b / s);
  }

  /**
    The windows of `ts` in the grid through `last`: exactly those that contain it, each once, when
    `ts` is less than `size` into its slide; otherwise the window at `last`, which does not contain it.
    They come latest first, as many as the sizes allow, when `last` is not a slide or more before `ts`.
   */
  ghost predicate SlidingWindows(windows: seq<Win>, ts: int, size: int, slide: int, last: int)
    requires slide > 0
  {
    var into := Into(ts, slide, last);
    if into < size then
      && ExactCover(windows, ts, size, Starts(slide, last)) && windows != []
      && (last + slide > ts ==> LatestFirst(windows) && Span(|windows| - 1, slide) < size - into <= Span(|windows|, slide))
    else
      windows == [Win(last, last + size)] && !windows[0].Contains(ts)
  }

  method Sliding(ts: int, size: int, slide: int, offset: int) returns (windows: seq<Win>)
    requires slide > 0
    ensures SlidingWindows(windows, ts, size, slide, WindowStart(ts, slide, offset))
  {
    var last := WindowStart(ts, slide, offset);
    ghost var grid, floor := Starts(slide, last), ts - Into(ts, slide, last);
    StartsGrid(slide, last);
    FloorAligned(ts, slide, last);
    LastStart(slide, last);
    AfterFloor(ts, slide, grid, floor, last);
    windows := WalkBack(ts, size, slide, last, grid, floor);
    var ahead := WalkAhead(ts, size, slide, last, grid);
    BackAndAhead(windows, ahead, last, ts, size, grid);
    SlidingFound(windows, ahead, ts, size, slide, last, floor);
    windows := windows + ahead;

    if |windows| == 0 {
      windows := [Win(last, last + size)];
      assert !Covers(windows[0], ts, size, grid);
    }
  }

  lemma LastStart(slide: int, last: int)
    requires slide > 0
    ensures last in Starts(slide, last)
  {
    ModUnique(0, slide, 0);
  }

  lemma SlidingFound(back: seq<Win>, ahead: seq<Win>, ts: int, size: int, slide: int, last: int, floor: int)
    requires slide > 0 && floor == ts - Into(ts, slide, last) && floor <= ts < floor + slide
    requires floor in Starts(slide, last) && (last + slide > ts ==> last >= floor)
    requires CoverAfter(back, ts - size, last, ts, size, Starts(slide, last))
    requires CoverBefore(ahead, ts + 1, last, ts, size, Starts(slide, last)) && Grid(Starts(slide, last), slide)
    ensures back + ahead != [] <==> Into(ts, slide, last) < size
    ensures last + slide > ts ==> ahead == []
  {
    var grid := Starts(slide, last);
    if ts < floor + size {
      assert Covers(Win(floor, floor + size), ts, size, grid);
      assert Win(floor, floor + size) in back + ahead;
    }
    if ahead != [] {
      assert Covers(ahead[0], ts, size, grid);
      AfterFloor(ts, slide, grid, floor, ahead[0].start);
    }
    if back != [] {
      assert Covers(back[0], ts, size, grid);
      AfterFloor(ts, slide, grid, floor, back[0].start);
    }
  }

  /** With a positive slide no longer than the size there are floor or ceiling of size / slide windows, and no fallback. */
  lemma SlidingCount(n: nat, ts: int, size: int, slide: int, offset: int)
    requires 0 < slide <= size && n >= 1
    requires Span(n - 1, slide) < size - Into(ts, slide, offset) <= Span(n, slide)
    ensures Into(ts, slide, offset) < size
    ensures n == size / slide || (size % slide != 0 && n == size / slide + 1)
  {
    SpanTimes(n - 1, slide);
    SpanTimes(n, slide);
    DivBounds(size, slide);
    ModUnique(size, slide, size / slide);
    DivBounds(ts - offset, slide);
    ModUnique(ts - offset, slide, (ts - offset) / slide);
    var q := size / slide;
    if n > q + 1 {
      MulStep(q, n - 1, slide);
    } else if n < q {
      MulStep(n, q, slide);
    }
  }
}
