/** The per-pair price history: a sliding window of timestamped points, oldest first. */
module History {

  /** The number of points every pair is seeded with, and keeps from then on. */
  const Capacity: nat := 40

  /** One chart point: a millisecond timestamp and a price. */
  datatype Point = Point(timestamp: int, value: real)

  /** `[...history.slice(1), p]`: drop the oldest point and append the newest. */
  function Push(h: seq<Point>, p: Point): (r: seq<Point>)
    ensures |h| >= 1 ==> |r| == |h|
    ensures |h| == 0 ==> r == [p]
    ensures r[|r| - 1] == p
    ensures forall i :: 0 <= i < |r| - 1 ==> r[i] == h[i + 1]
  {
    (if |h| == 0 then [] else h[1..]) + [p]
  }

  /** Pushes `ps` one after another, first element first. */
  function PushAll(h: seq<Point>, ps: seq<Point>): seq<Point>
    decreases |ps|
  {
    if |ps| == 0 then h else PushAll(Push(h, ps[0]), ps[1..])
  }

  /** A push on a non-empty window is append-then-trim. */
  lemma PushIsAppendThenTrim(h: seq<Point>, p: Point)
    requires |h| >= 1
    ensures Push(h, p) == (h + [p])[1..]
  {
  }

  /** Any number of pushes on a non-empty window keep the last |h| points of everything appended:
      the window never grows or shrinks, and it holds the old tail followed by the pushed points in order. */
  lemma {:induction false} SlidingWindow(h: seq<Point>, ps: seq<Point>)
    requires |h| >= 1
    ensures PushAll(h, ps) == (h + ps)[|ps|..]
    ensures |PushAll(h, ps)| == |h|
    decreases |ps|
  {
    if |ps| > 0 {
      var h' := Push(h, ps[0]);
      PushIsAppendThenTrim(h, ps[0]);
      SlidingWindow(h', ps[1..]);
      assert h' + ps[1..] == (h + ps)[1..] by {
        assert h + ps == h + [ps[0]] + ps[1..];
      }
    }
  }
}
