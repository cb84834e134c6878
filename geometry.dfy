/**
 * Points and the machine's work envelope, as `DXFAnalyzer` uses them:
 * `is_valid_coordinate`, `filter_geometry` and the bounding box of a polyline.
 */
module Geometry {
  import opened Sequences

  /** A drawing coordinate in millimetres; a float is taken as the exact real it denotes. */
  datatype Point = Point(x: real, y: real)

  /** The defaults of `is_valid_coordinate`'s `max_x` and `max_y`, the only values its callers use. */
  const EnvelopeMaxX: real := 2500.0
  const EnvelopeMaxY: real := 3000.0

  /** `is_valid_coordinate(x, y)` */
  predicate IsValidCoordinate(x: real, y: real) {
    0.0 <= x <= EnvelopeMaxX && 0.0 <= y <= EnvelopeMaxY
  }

  predicate InEnvelope(q: Point) {
    IsValidCoordinate(q.x, q.y)
  }

  predicate AllInEnvelope(ps: seq<Point>) {
    forall i :: 0 <= i < |ps| ==> InEnvelope(ps[i])
  }

  /** The in-envelope points of ps, in their order: what `filter_geometry` returns. */
  function Filtered(ps: seq<Point>): seq<Point>
    decreases |ps|
  {
    if ps == [] then []
    else Filtered(ps[..|ps| - 1]) + (if InEnvelope(ps[|ps| - 1]) then [ps[|ps| - 1]] else [])
  }

  /**
   * The filter keeps every in-envelope point, keeps nothing else, and keeps
   * the original order (multiplicities: `FilteredCounts`).
   */
  lemma {:induction false} FilteredIsExactlyTheEnvelopePoints(ps: seq<Point>)
    ensures AllInEnvelope(Filtered(ps))
    ensures forall i :: 0 <= i < |ps| && InEnvelope(ps[i]) ==> ps[i] in Filtered(ps)
    ensures forall q :: q in Filtered(ps) ==> q in ps
    ensures IsSubsequence(Filtered(ps), ps)
    decreases |ps|
  {
    if ps != [] {
      var init, last := ps[..|ps| - 1], ps[|ps| - 1];
      FilteredIsExactlyTheEnvelopePoints(init);
      var f := Filtered(init);
      assert forall i :: 0 <= i < |ps| - 1 ==> ps[i] == init[i];
      if InEnvelope(last) {
        assert Filtered(ps) == f + [last];
        assert (f + [last])[..|f|] == f;
        assert IsSubsequence(f + [last], ps) == IsSubsequence(f, init);
      } else {
        assert Filtered(ps) == f;
        if f != [] {
          assert InEnvelope(f[|f| - 1]) && f[|f| - 1] != last;
          assert IsSubsequence(f, ps) == IsSubsequence(f, init);
        }
      }
    }
  }

  /** Each in-envelope point is kept as often as it occurs; no other point is kept. */
  lemma {:induction false} FilteredCounts(ps: seq<Point>)
    ensures forall q :: multiset(Filtered(ps))[q] == if InEnvelope(q) then multiset(ps)[q] else 0
    decreases |ps|
  {
    if ps != [] {
      var init, last := ps[..|ps| - 1], ps[|ps| - 1];
      FilteredCounts(init);
      assert ps == init + [last];
    }
  }

  /** Points that are all in the envelope pass the filter whole. */
  lemma {:induction false} FilteredKeepsEnvelopeRuns(ps: seq<Point>)
    requires AllInEnvelope(ps)
    ensures Filtered(ps) == ps
    decreases |ps|
  {
    if ps != [] {
      FilteredKeepsEnvelopeRuns(ps[..|ps| - 1]);
    }
  }

  /** Filtering an already filtered polyline changes nothing. */
  lemma FilteredIsIdempotent(ps: seq<Point>)
    ensures Filtered(Filtered(ps)) == Filtered(ps)
  {
    FilteredIsExactlyTheEnvelopePoints(ps);
    FilteredKeepsEnvelopeRuns(Filtered(ps));
  }

  /** `filter_geometry(points)` */
  method FilterGeometry(points: seq<Point>) returns (filtered: seq<Point>)
    ensures filtered == Filtered(points)
  {
    filtered := [];
    var i := 0;
    while i < |points|
      invariant 0 <= i <= |points|
      invariant filtered == Filtered(points[..i])
    {
      assert points[..i + 1][..i] == points[..i];
      if IsValidCoordinate(points[i].x, points[i].y) {
        filtered := filtered + [points[i]];
      }
      i := i + 1;
    }
    assert points[..|points|] == points;
  }

  /** Python's `max(p[0] for p in points)` and its three siblings. */
  function MaxOf(s: seq<real>): (m: real)
    requires |s| > 0
    ensures m in s && forall i :: 0 <= i < |s| ==> s[i] <= m
    decreases |s|
  {
    if |s| == 1 then s[0]
    else
      var m := MaxOf(s[..|s| - 1]);
      assert forall i :: 0 <= i < |s| - 1 ==> s[i] == s[..|s| - 1][i];
      if s[|s| - 1] > m then s[|s| - 1] else m
  }

  function MinOf(s: seq<real>): (m: real)
    requires |s| > 0
    ensures m in s && forall i :: 0 <= i < |s| ==> m <= s[i]
    decreases |s|
  {
    if |s| == 1 then s[0]
    else
      var m := MinOf(s[..|s| - 1]);
      assert forall i :: 0 <= i < |s| - 1 ==> s[i] == s[..|s| - 1][i];
      if s[|s| - 1] < m then s[|s| - 1] else m
  }

  function Xs(ps: seq<Point>): (xs: seq<real>)
    ensures |xs| == |ps| && forall i :: 0 <= i < |ps| ==> xs[i] == ps[i].x
  {
    seq(|ps|, i requires 0 <= i < |ps| => ps[i].x)
  }

  function Ys(ps: seq<Point>): (ys: seq<real>)
    ensures |ys| == |ps| && forall i :: 0 <= i < |ps| ==> ys[i] == ps[i].y
  {
    seq(|ps|, i requires 0 <= i < |ps| => ps[i].y)
  }

  /** `max_x - min_x` over the points. */
  function Width(ps: seq<Point>): real
    requires |ps| > 0
  {
    MaxOf(Xs(ps)) - MinOf(Xs(ps))
  }

  /** `max_y - min_y` over the points. */
  function Height(ps: seq<Point>): real
    requires |ps| > 0
  {
    MaxOf(Ys(ps)) - MinOf(Ys(ps))
  }

  /**
   * Width and height are the extents of the smallest axis-aligned box that
   * holds every point: every pair of points is at most that far apart, and
   * some pair is exactly that far apart.
   */
  lemma BoundingBoxIsTight(ps: seq<Point>)
    requires |ps| > 0
    ensures forall i, j :: 0 <= i < |ps| && 0 <= j < |ps| ==>
      ps[i].x - ps[j].x <= Width(ps) && ps[i].y - ps[j].y <= Height(ps)
    ensures exists i, j :: 0 <= i < |ps| && 0 <= j < |ps| && ps[i].x - ps[j].x == Width(ps)
    ensures exists i, j :: 0 <= i < |ps| && 0 <= j < |ps| && ps[i].y - ps[j].y == Height(ps)
    ensures Width(ps) >= 0.0 && Height(ps) >= 0.0
  {
    var xs, ys := Xs(ps), Ys(ps);
    var a :| 0 <= a < |xs| && xs[a] == MaxOf(xs);
    var b :| 0 <= b < |xs| && xs[b] == MinOf(xs);
    assert ps[a].x - ps[b].x == Width(ps);
    var c :| 0 <= c < |ys| && ys[c] == MaxOf(ys);
    var d :| 0 <= d < |ys| && ys[d] == MinOf(ys);
    assert ps[c].y - ps[d].y == Height(ps);
  }
}
