/** Axis-aligned boxes in three dimensions (math/rect.go). A box is its
  * most negative corner `p` and its most positive corner `q`. Coordinates
  * are `float64` in the source and reals here: the comparisons are the
  * same, and rounding, infinities and NaN are not modelled. */
module Rects {
  import opened Wrappers

  /** Points are `[3]float64`. */
  const Dim := 3

  type Point = s: seq<real> | |s| == Dim witness [0.0, 0.0, 0.0]

  datatype Rect = Rect(p: Point, q: Point)

  /** What `NewRect` and `NewRectFromPoints` promise: `p[i] <= q[i]` on
    * every axis. */
  predicate Ordered(r: Rect)
  {
    forall i :: 0 <= i < Dim ==> r.p[i] <= r.q[i]
  }

  /** The message `DistError` prints. */
  const ImproperDistance := "rtree: improper distance"

  /** `NewRect`: the corner `p` and, on each axis, `p[i] + lengths[i]`.
    * The first non-positive length panics. */
  method NewRect(p: Point, lengths: Point) returns (r: Result<Rect>)
    ensures r.Ok? <==> forall i :: 0 <= i < Dim ==> lengths[i] > 0.0
    ensures r.Err? ==> r.error == ImproperDistance
    ensures r.Ok? ==> r.value.p == p && forall i :: 0 <= i < Dim ==> r.value.q[i] == p[i] + lengths[i]
    ensures r.Ok? ==> forall i :: 0 <= i < Dim ==> r.value.p[i] < r.value.q[i]
  {
    var q: seq<real> := [0.0, 0.0, 0.0];
    for i := 0 to Dim
      invariant |q| == Dim
      invariant forall k :: 0 <= k < i ==> lengths[k] > 0.0 && q[k] == p[k] + lengths[k]
    {
      if lengths[i] <= 0.0 {
        return Err(ImproperDistance);
      }
      q := q[i := p[i] + lengths[i]];
    }
    r := Ok(Rect(p, q));
  }

  function Min(a: real, b: real): real { if a <= b then a else b }
  function Max(a: real, b: real): real { if a <= b then b else a }

  /** `NewRectFromPoints`: swaps the two corners' coordinates on every axis
    * where the first is the larger, so that the box is ordered and spans
    * exactly the two points. */
  method NewRectFromPoints(minPoint: Point, maxPoint: Point) returns (r: Rect)
    ensures Ordered(r)
    ensures forall i :: 0 <= i < Dim ==>
      r.p[i] == Min(minPoint[i], maxPoint[i]) && r.q[i] == Max(minPoint[i], maxPoint[i])
  {
    var lo: seq<real> := minPoint;
    var hi: seq<real> := maxPoint;
    for i := 0 to Dim
      invariant |lo| == |hi| == Dim
      invariant forall k :: 0 <= k < i ==> lo[k] == Min(minPoint[k], maxPoint[k]) && hi[k] == Max(minPoint[k], maxPoint[k])
      invariant forall k :: i <= k < Dim ==> lo[k] == minPoint[k] && hi[k] == maxPoint[k]
    {
      var c := lo[i];
      if lo[i] > hi[i] {
        lo := lo[i := hi[i]];
        hi := hi[i := c];
      }
    }
    r := Rect(lo, hi);
  }

  /** `Equal`: both corners agree coordinate by coordinate. */
  method Equal(r: Rect, other: Rect) returns (b: bool)
    ensures b <==> r == other
  {
    for i := 0 to Dim
      invariant forall k :: 0 <= k < i ==> r.p[k] == other.p[k]
    {
      if r.p[i] != other.p[i] {
        return false;
      }
    }
    assert r.p == other.p;
    for i := 0 to Dim
      invariant forall k :: 0 <= k < i ==> r.q[k] == other.q[k]
    {
      if r.q[i] != other.q[i] {
        return false;
      }
    }
    assert r.q == other.q;
    return true;
  }

  /** `a` lies inside `r` or on its boundary. */
  predicate Inside(a: Point, r: Rect)
  {
    forall i :: 0 <= i < Dim ==> r.p[i] <= a[i] <= r.q[i]
  }

  /** `r2` lies inside `r`: on every axis it starts no lower and ends no
    * higher. */
  predicate Within(r2: Rect, r: Rect)
  {
    forall i :: 0 <= i < Dim ==> r.p[i] <= r2.p[i] && r2.q[i] <= r.q[i]
  }

  /** `ContainsPoint`: stops at the first axis where `a` is outside. */
  method ContainsPoint(r: Rect, a: Point) returns (b: bool)
    ensures b <==> Inside(a, r)
  {
    for i := 0 to Dim
      invariant forall k :: 0 <= k < i ==> r.p[k] <= a[k] <= r.q[k]
    {
      if a[i] < r.p[i] || a[i] > r.q[i] {
        return false;
      }
    }
    return true;
  }

  /** `ContainsRect`: stops at the first axis where `r2` sticks out. */
  method ContainsRect(r: Rect, r2: Rect) returns (b: bool)
    ensures b <==> Within(r2, r)
  {
    for i := 0 to Dim
      invariant forall k :: 0 <= k < i ==> r.p[k] <= r2.p[k] && r2.q[k] <= r.q[k]
    {
      if r.p[i] > r2.p[i] || r2.q[i] > r.q[i] {
        return false;
      }
    }
    return true;
  }

  /** Containment of boxes is reflexive and transitive, and a box inside
    * another takes its points along. */
  lemma WithinLaws(r1: Rect, r2: Rect, r3: Rect, a: Point)
    ensures Within(r1, r1)
    ensures Within(r1, r2) && Within(r2, r3) ==> Within(r1, r3)
    ensures Within(r1, r2) && Inside(a, r1) ==> Inside(a, r2)
  {
  }

  /** An ordered box contains its own corners. */
  lemma CornersInside(r: Rect)
    requires Ordered(r)
    ensures Inside(r.p, r) && Inside(r.q, r)
  {
  }
}
