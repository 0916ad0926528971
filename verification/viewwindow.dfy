/** The chart's zoom and pan window over a pair's history, and the slice of history it shows. */
module ViewWindow {

  /** `size` is how many points the chart asks to show; `offset` how many points back from the newest it ends. */
  datatype View = View(size: int, offset: int)

  /** The window every card starts in, and returns to on reset: twenty points, ending at the live edge. */
  const InitialView: View := View(20, 0)

  function Max(a: int, b: int): int { if a >= b then a else b }

  function Min(a: int, b: int): int { if a <= b then a else b }

  /** Zoom in: five points fewer, never fewer than five. */
  function ZoomIn(v: View): (r: View)
    ensures r.offset == v.offset
    ensures r.size >= 5
    ensures v.size >= 10 ==> r.size == v.size - 5
    ensures v.size <= 10 ==> r.size == 5
  {
    v.(size := Max(5, v.size - 5))
  }

  /** Zoom out: five points more, never more than the history holds. The offset is left as it is. */
  function ZoomOut(v: View, len: int): (r: View)
    ensures r.offset == v.offset
    ensures r.size <= len
    ensures v.size <= len ==> v.size <= r.size <= v.size + 5
    ensures v.size + 5 <= len ==> r.size == v.size + 5
    ensures v.size + 5 >= len ==> r.size == len
  {
    v.(size := Min(len, v.size + 5))
  }

  /** Pan left (further back): five points more offset, bounded by the history length less the
      current size. An offset already past that bound is pulled back to it. */
  function PanLeft(v: View, len: int): (r: View)
    ensures r.size == v.size
    ensures r.offset <= len - v.size
    ensures r.offset <= v.offset + 5
    ensures v.offset <= len - v.size ==> v.offset <= r.offset
    ensures v.offset + 5 <= len - v.size ==> r.offset == v.offset + 5
    ensures v.offset + 5 >= len - v.size ==> r.offset == len - v.size
  {
    v.(offset := Min(len - v.size, v.offset + 5))
  }

  /** Pan right (toward live): five points less offset, never below zero; at the live edge it changes nothing. */
  function PanRight(v: View): (r: View)
    ensures r.size == v.size
    ensures r.offset >= 0
    ensures v.offset >= 0 ==> v.offset - 5 <= r.offset <= v.offset
    ensures v.offset >= 5 ==> r.offset == v.offset - 5
    ensures v.offset <= 5 ==> r.offset == 0
    ensures v.offset == 0 ==> r == v
  {
    v.(offset := Max(0, v.offset - 5))
  }

  /** Reset: back to the initial window, whatever the current one. */
  function Reset(v: View): View
  {
    InitialView
  }

  /** The five chart controls. */
  datatype Control = ZoomInButton | ZoomOutButton | PanLeftButton | PanRightButton | ResetButton

  /** One click on a control, for a history of `len` points. */
  function Apply(v: View, c: Control, len: int): View
  {
    match c
    case ZoomInButton => ZoomIn(v)
    case ZoomOutButton => ZoomOut(v, len)
    case PanLeftButton => PanLeft(v, len)
    case PanRightButton => PanRight(v)
    case ResetButton => Reset(v)
  }

  /** A sequence of clicks, first click first. */
  function Run(v: View, cs: seq<Control>, len: int): View
    decreases |cs|
  {
    if |cs| == 0 then v else Run(Apply(v, cs[0], len), cs[1..], len)
  }

  /** The same control clicked `n` times. */
  function Repeat(v: View, c: Control, n: nat, len: int): View
    decreases n
  {
    if n == 0 then v else Repeat(Apply(v, c, len), c, n - 1, len)
  }

  /** The window invariant the controls keep: between five points and the whole history, and an
      offset that leaves at least five points before the window's end. The tighter bound
      `offset <= len - size` is not kept (see `ZoomOutBreaksPanBound`). */
  predicate Safe(v: View, len: int)
  {
    5 <= v.size <= len && 0 <= v.offset <= len - 5
  }

  /** Every control keeps the window invariant, for a history long enough to hold the reset window. */
  lemma ApplyKeepsSafe(v: View, c: Control, len: int)
    requires len >= InitialView.size && Safe(v, len)
    ensures Safe(Apply(v, c, len), len)
  {
  }

  /** Any sequence of clicks from a safe window ends in a safe window. */
  lemma {:induction false} RunKeepsSafe(v: View, cs: seq<Control>, len: int)
    requires len >= InitialView.size && Safe(v, len)
    ensures Safe(Run(v, cs, len), len)
    decreases |cs|
  {
    if |cs| > 0 {
      ApplyKeepsSafe(v, cs[0], len);
      RunKeepsSafe(Apply(v, cs[0], len), cs[1..], len);
    }
  }

  /** Every window reachable from the initial one is safe. */
  lemma ReachableViewsAreSafe(cs: seq<Control>, len: int)
    requires len >= InitialView.size
    ensures Safe(Run(InitialView, cs, len), len)
  {
    RunKeepsSafe(InitialView, cs, len);
  }

  /** Zooming out at the far-left window leaves the offset past `len - size`; the next pan left then
      moves the window toward live (offset 20 down to 15), so pan left is not monotone. */
  lemma ZoomOutBreaksPanBound()
    ensures Run(InitialView, [PanLeftButton, PanLeftButton, PanLeftButton, PanLeftButton], 40) == View(20, 20)
    ensures ZoomOut(View(20, 20), 40) == View(25, 20)
    ensures View(25, 20).offset > 40 - View(25, 20).size
    ensures PanLeft(View(25, 20), 40) == View(25, 15)
  {
  }

  /** Repeated zoom-in shrinks the window five points at a time down to five, and no further. */
  lemma {:induction false} RepeatedZoomIn(v: View, n: nat, len: int)
    requires v.size >= 5
    ensures Repeat(v, ZoomInButton, n, len) == View(Max(5, v.size - 5 * n), v.offset)
    decreases n
  {
    if n > 0 {
      RepeatedZoomIn(ZoomIn(v), n - 1, len);
    }
  }

  /** From the initial window, a hundred zoom-ins leave five points. */
  lemma HundredZoomInsReachFive(len: int)
    ensures Repeat(InitialView, ZoomInButton, 100, len).size == 5
  {
    RepeatedZoomIn(InitialView, 100, len);
  }

  /** Repeated pan-left from within the bound moves five points at a time and stops at `len - size`. */
  lemma {:induction false} RepeatedPanLeft(v: View, n: nat, len: int)
    requires 0 <= v.offset <= len - v.size
    ensures Repeat(v, PanLeftButton, n, len) == View(v.size, Min(len - v.size, v.offset + 5 * n))
    decreases n
  {
    if n > 0 {
      RepeatedPanLeft(PanLeft(v, len), n - 1, len);
    }
  }

  /** From the initial window over 40 points, pan-left never takes the offset past 20, and reaches it after four clicks. */
  lemma PanLeftStopsAtTwenty(n: nat)
    ensures Repeat(InitialView, PanLeftButton, n, 40).offset <= 20
    ensures n >= 4 ==> Repeat(InitialView, PanLeftButton, n, 40).offset == 20
  {
    RepeatedPanLeft(InitialView, n, 40);
  }

  /** Reset from any window shows the newest twenty points, ending at the live edge. */
  lemma ResetShowsNewestTwenty<T>(h: seq<T>, v: View)
    requires |h| >= 20
    ensures Reset(v).offset == 0
    ensures VisibleData(h, Reset(v)) == h[|h| - 20..]
  {
    assert Safe(InitialView, |h|);
    SafeWindowSlice(h, InitialView);
    assert VisibleStart(|h|, InitialView) == |h| - 20;
  }

  /** How `Array.prototype.slice` reads an index: negative counts from the end, and the result is
      clipped to [0, len]. */
  function SliceIndex(i: int, len: nat): (k: nat)
    ensures k <= len
    ensures 0 <= i <= len ==> k == i
    ensures i < 0 && len + i >= 0 ==> k == len + i
    ensures i > len ==> k == len
    ensures len + i < 0 ==> k == 0
  {
    if i < 0 then Max(0, len + i) else Min(i, len)
  }

  /** `s.slice(start, end)`. */
  function JsSlice<T>(s: seq<T>, start: int, end: int): (r: seq<T>)
    ensures 0 <= start <= end <= |s| ==> r == s[start..end]
  {
    var a := SliceIndex(start, |s|);
    var b := SliceIndex(end, |s|);
    if a < b then s[a..b] else []
  }

  /** The first index shown: `max(0, end - size)`. */
  function VisibleStart(len: int, v: View): int
  {
    Max(0, VisibleEnd(len, v) - v.size)
  }

  /** One past the last index shown: `len - offset`. */
  function VisibleEnd(len: int, v: View): int
  {
    len - v.offset
  }

  /** `visibleData`: the slice of the history the chart draws. */
  function VisibleData<T>(h: seq<T>, v: View): seq<T>
  {
    JsSlice(h, VisibleStart(|h|, v), VisibleEnd(|h|, v))
  }

  /** With an offset within the history and a non-negative size, the slice bounds are in order and in range. */
  lemma VisibleRangeInBounds(len: nat, v: View)
    requires 0 <= v.offset <= len && v.size >= 0
    ensures 0 <= VisibleStart(len, v) <= VisibleEnd(len, v) <= len
  {
  }

  /** A safe window shows a contiguous run of between five and `size` points, ending `offset` points back. */
  lemma SafeWindowSlice<T>(h: seq<T>, v: View)
    requires Safe(v, |h|)
    ensures VisibleData(h, v) == h[VisibleStart(|h|, v)..|h| - v.offset]
    ensures |VisibleData(h, v)| == Min(v.size, |h| - v.offset)
    ensures 5 <= |VisibleData(h, v)| <= v.size
    ensures VisibleData(h, v)[|VisibleData(h, v)| - 1] == h[|h| - 1 - v.offset]
  {
  }

  /** Whatever the clicks, the chart of a history of at least twenty points is never empty. */
  lemma ReachableSliceNonEmpty<T>(h: seq<T>, cs: seq<Control>)
    requires |h| >= InitialView.size
    ensures |VisibleData(h, Run(InitialView, cs, |h|))| >= 5
  {
    ReachableViewsAreSafe(cs, |h|);
    SafeWindowSlice(h, Run(InitialView, cs, |h|));
  }

  /** `CustomLiveDot`: the live marker is drawn at chart index `index` when it is the last visible
      point and the window ends at the live edge. */
  predicate ShowsLiveDot<T>(h: seq<T>, v: View, index: int)
  {
    index == |VisibleData(h, v)| - 1 && v.offset == 0
  }

  /** The live marker always sits on the newest history point. */
  lemma LiveDotMarksNewestPoint<T>(h: seq<T>, v: View, index: int)
    requires Safe(v, |h|) && ShowsLiveDot(h, v, index)
    ensures 0 <= index < |VisibleData(h, v)|
    ensures VisibleData(h, v)[index] == h[|h| - 1]
  {
    SafeWindowSlice(h, v);
  }

  /** In a safe window the chart shows a suffix of the history (ending at the newest point) exactly
      when the offset is zero, which is the only window that draws the live marker. */
  lemma LastVisibleIsNewestIffLive<T>(h: seq<T>, v: View)
    requires Safe(v, |h|)
    ensures VisibleData(h, v) == h[VisibleStart(|h|, v)..] <==> v.offset == 0
    ensures (exists index :: ShowsLiveDot(h, v, index)) <==> v.offset == 0
  {
    SafeWindowSlice(h, v);
    if v.offset == 0 {
      assert ShowsLiveDot(h, v, |VisibleData(h, v)| - 1);
    } else {
      assert |VisibleData(h, v)| < |h[VisibleStart(|h|, v)..]|;
    }
  }
}
