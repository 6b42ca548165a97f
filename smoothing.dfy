/**
 * Moving-average smoothing of line centroids (calculate_smoothed_position).
 * The history is a FIFO window of at most HistorySize points; the smoothed
 * position is the floor-mean of the window's x and of its y values.
 */
module Smoothing {

  const HistorySize: nat := 5

  /** A centroid in frame coordinates. */
  datatype Point = Point(x: int, y: int)

  // ---------------------------------------------------------------------------
  // The window

  /** The history after appending `p` and evicting the oldest entry if it is too long. */
  function Window(history: seq<Point>, p: Point): (w: seq<Point>)
    ensures 0 < |w| && w[|w| - 1] == p
    ensures |history| < HistorySize ==> w == history + [p]
    ensures |history| == HistorySize ==> w == history[1..] + [p]
    ensures |history| <= HistorySize ==> |w| <= HistorySize
  {
    var appended := history + [p];
    if |appended| > HistorySize then appended[1..] else appended
  }

  /** The most recent (at most HistorySize) observations of a stream of centroids. */
  function Recent(observed: seq<Point>): (w: seq<Point>)
  {
    if |observed| <= HistorySize then observed else observed[|observed| - HistorySize..]
  }

  /** Feeding the window one more point keeps it equal to the last observations of the stream. */
  lemma WindowOfRecent(observed: seq<Point>, p: Point)
    ensures Window(Recent(observed), p) == Recent(observed + [p])
    ensures |Recent(observed + [p])| == if |observed| < HistorySize then |observed| + 1 else HistorySize
  {
  }

  /** Once HistorySize or more newer points are seen, earlier observations can no longer influence the window. */
  lemma EvictedObservationsIgnored(earlier: seq<Point>, latest: seq<Point>)
    requires |latest| >= HistorySize
    ensures Recent(earlier + latest) == Recent(latest)
    ensures |latest| == HistorySize ==> Recent(earlier + latest) == latest
  {
    var all := earlier + latest;
    assert all[|all| - HistorySize..] == latest[|latest| - HistorySize..];
  }

  // ---------------------------------------------------------------------------
  // Arithmetic over the window

  function Xs(w: seq<Point>): (r: seq<int>)
    ensures |r| == |w| && forall k :: 0 <= k < |w| ==> r[k] == w[k].x
  {
    seq(|w|, k requires 0 <= k < |w| => w[k].x)
  }

  function Ys(w: seq<Point>): (r: seq<int>)
    ensures |r| == |w| && forall k :: 0 <= k < |w| ==> r[k] == w[k].y
  {
    seq(|w|, k requires 0 <= k < |w| => w[k].y)
  }

  function Sum(s: seq<int>): int
  {
    if s == [] then 0 else s[0] + Sum(s[1..])
  }

  function Min(s: seq<int>): (m: int)
    requires s != []
    ensures m in s && forall k :: 0 <= k < |s| ==> m <= s[k]
  {
    if |s| == 1 then s[0] else if s[0] <= Min(s[1..]) then s[0] else Min(s[1..])
  }

  function Max(s: seq<int>): (m: int)
    requires s != []
    ensures m in s && forall k :: 0 <= k < |s| ==> s[k] <= m
  {
    if |s| == 1 then s[0] else if s[0] >= Max(s[1..]) then s[0] else Max(s[1..])
  }

  /** Integer floor-mean; Python's `//` by a positive length is Dafny's `/`. */
  function Mean(s: seq<int>): int
    requires s != []
  {
    Sum(s) / |s|
  }

  /** The smoothed position of a non-empty window. */
  function Smoothed(w: seq<Point>): Point
    requires w != []
  {
    Point(Mean(Xs(w)), Mean(Ys(w)))
  }

  lemma {:induction false} SumBounds(s: seq<int>, lo: int, hi: int)
    requires forall k :: 0 <= k < |s| ==> lo <= s[k] <= hi
    ensures |s| * lo <= Sum(s) <= |s| * hi
  {
    if s != [] {
      SumBounds(s[1..], lo, hi);
      assert |s| * lo == lo + (|s| - 1) * lo;
      assert |s| * hi == hi + (|s| - 1) * hi;
    }
  }

  lemma MulCancelLess(n: int, a: int, b: int)
    requires 0 < n && n * a < n * b
    ensures a < b
  {
  }

  lemma DivBounds(total: int, n: int, lo: int, hi: int)
    requires 0 < n && n * lo <= total <= n * hi
    ensures lo <= total / n <= hi
  {
    var q := total / n;
    assert n * q <= total < n * q + n;
    assert n * (q + 1) == n * q + n;
    MulCancelLess(n, lo, q + 1);
    assert n * (hi + 1) == n * hi + n;
    MulCancelLess(n, q, hi + 1);
  }

  /** A mean stays inside any bounds that hold for every element. */
  lemma MeanBounds(s: seq<int>, lo: int, hi: int)
    requires s != []
    requires forall k :: 0 <= k < |s| ==> lo <= s[k] <= hi
    ensures lo <= Mean(s) <= hi
  {
    SumBounds(s, lo, hi);
    DivBounds(Sum(s), |s|, lo, hi);
  }

  /** The smoothed position lies within the window's bounding box. */
  lemma SmoothedWithinWindow(w: seq<Point>)
    requires w != []
    ensures Min(Xs(w)) <= Smoothed(w).x <= Max(Xs(w))
    ensures Min(Ys(w)) <= Smoothed(w).y <= Max(Ys(w))
  {
    MeanBounds(Xs(w), Min(Xs(w)), Max(Xs(w)));
    MeanBounds(Ys(w), Min(Ys(w)), Max(Ys(w)));
  }

  /** A window holding one repeated point smooths to that point. */
  lemma SmoothedOfConstant(w: seq<Point>, p: Point)
    requires w != []
    requires forall k :: 0 <= k < |w| ==> w[k] == p
    ensures Smoothed(w) == p
  {
    MeanBounds(Xs(w), p.x, p.x);
    MeanBounds(Ys(w), p.y, p.y);
  }

  // ---------------------------------------------------------------------------
  // The smoother object

  /** Owner of the position history that the source keeps in a global list. */
  class PositionSmoother {
    var history: seq<Point>
    /** Every point ever observed, oldest first. */
    ghost var Observed: seq<Point>

    ghost predicate Valid()
      reads this
    {
      history == Recent(Observed)
    }

    constructor ()
      ensures Valid() && history == [] && Observed == []
    {
      history := [];
      Observed := [];
    }

    /** Appends `p`, evicts the oldest entry beyond HistorySize and returns the window's floor-mean. */
    method Observe(p: Point) returns (avg: Point)
      requires Valid()
      modifies this
      ensures Valid() && Observed == old(Observed) + [p]
      ensures history == Window(old(history), p)
      ensures |history| == if |old(history)| < HistorySize then |old(history)| + 1 else HistorySize
      ensures avg == Smoothed(Recent(Observed))
    {
      WindowOfRecent(Observed, p);
      history := history + [p];
      if |history| > HistorySize {
        history := history[1..];
      }
      Observed := Observed + [p];
      avg := Point(Sum(Xs(history)) / |history|, Sum(Ys(history)) / |history|);
    }
  }
}
