/** Intersection and bounding boxes (math/helpers.go). */
module RectHelpers {
  import opened Wrappers
  import opened Rects

  /** The boxes overlap on every axis with positive length: touching boxes
    * do not count. */
  predicate Overlap(r1: Rect, r2: Rect)
  {
    forall i :: 0 <= i < Dim ==> r1.p[i] < r2.q[i] && r2.p[i] < r1.q[i]
  }

  /** `Intersect`: false as soon as one axis has `b2 <= a1` or `b1 <= a2`. */
  method Intersect(r1: Rect, r2: Rect) returns (b: bool)
    ensures b <==> Overlap(r1, r2)
  {
    for i := 0 to Dim
      invariant forall k :: 0 <= k < i ==> r1.p[k] < r2.q[k] && r2.p[k] < r1.q[k]
    {
      if r2.q[i] <= r1.p[i] || r1.q[i] <= r2.p[i] {
        return false;
      }
    }
    return true;
  }

  /** Overlap does not depend on the order of the boxes. */
  lemma OverlapSymmetric(r1: Rect, r2: Rect)
    ensures Overlap(r1, r2) <==> Overlap(r2, r1)
  {
  }

  /** Two unit cubes that share a face do not intersect. */
  lemma TouchingDoNotOverlap()
    ensures !Overlap(Rect([0.0, 0.0, 0.0], [1.0, 1.0, 1.0]), Rect([1.0, 0.0, 0.0], [2.0, 1.0, 1.0]))
  {
    var r1 := Rect([0.0, 0.0, 0.0], [1.0, 1.0, 1.0]);
    var r2 := Rect([1.0, 0.0, 0.0], [2.0, 1.0, 1.0]);
    assert !(r2.p[0] < r1.q[0]);
  }

  /** The box `BoundingBox(r1, r2)` computes: per axis the lower of the
    * lower corners and the higher of the upper corners. */
  function Box(r1: Rect, r2: Rect): (bb: Rect)
  {
    Rect(seq(Dim, i requires 0 <= i < Dim => Min(r1.p[i], r2.p[i])),
         seq(Dim, i requires 0 <= i < Dim => Max(r1.q[i], r2.q[i])))
  }

  /** `BoundingBox`: fills a new box axis by axis. */
  method BoundingBox(r1: Rect, r2: Rect) returns (bb: Rect)
    ensures bb == Box(r1, r2)
  {
    var p: seq<real> := [0.0, 0.0, 0.0];
    var q: seq<real> := [0.0, 0.0, 0.0];
    for i := 0 to Dim
      invariant |p| == |q| == Dim
      invariant forall k :: 0 <= k < i ==> p[k] == Min(r1.p[k], r2.p[k]) && q[k] == Max(r1.q[k], r2.q[k])
    {
      if r1.p[i] <= r2.p[i] {
        p := p[i := r1.p[i]];
      } else {
        p := p[i := r2.p[i]];
      }
      if r1.q[i] <= r2.q[i] {
        q := q[i := r2.q[i]];
      } else {
        q := q[i := r1.q[i]];
      }
    }
    bb := Rect(p, q);
  }

  /** The bounding box contains both boxes, is the smallest box that does,
    * and does not depend on their order. */
  lemma BoxLaws(r1: Rect, r2: Rect, r: Rect)
    ensures Within(r1, Box(r1, r2)) && Within(r2, Box(r1, r2))
    ensures Within(r1, r) && Within(r2, r) ==> Within(Box(r1, r2), r)
    ensures Box(r1, r2) == Box(r2, r1)
  {
    var b := Box(r1, r2);
    var c := Box(r2, r1);
    assert b.p == c.p;
    assert b.q == c.q;
  }

  /** The bounding box of ordered boxes is ordered. */
  lemma BoxOrdered(r1: Rect, r2: Rect)
    requires Ordered(r1) && Ordered(r2)
    ensures Ordered(Box(r1, r2))
  {
  }

  /** The box `BoundingBoxN` computes: the bounding boxes folded left to
    * right, and a single box itself. */
  function BoxAll(rects: seq<Rect>): Rect
    requires |rects| >= 1
  {
    if |rects| == 1 then rects[0] else Box(BoxAll(rects[..|rects| - 1]), rects[|rects| - 1])
  }

  /** The message Go panics with when `BoundingBoxN` gets no box. */
  const IndexOutOfRange := "index out of range"

  /** `BoundingBoxN`: a single box is returned as it is; otherwise the
    * first two boxes are combined and the rest folded in. With no box at
    * all, `rects[0]` panics. */
  method BoundingBoxN(rects: seq<Rect>) returns (r: Result<Rect>)
    ensures r.Err? <==> rects == []
    ensures r.Ok? ==> r.value == BoxAll(rects)
  {
    if |rects| == 0 {
      return Err(IndexOutOfRange);
    }
    if |rects| == 1 {
      return Ok(rects[0]);
    }
    var bb := BoundingBox(rects[0], rects[1]);
    assert rects[..2][..1] == [rects[0]];
    for i := 2 to |rects|
      invariant bb == BoxAll(rects[..i])
    {
      bb := BoundingBox(bb, rects[i]);
      assert rects[..i + 1][..i] == rects[..i];
    }
    assert rects[..|rects|] == rects;
    return Ok(bb);
  }

  /** `BoundingBoxN` contains every box it is given, and is inside every
    * box that contains them all. */
  lemma {:induction false} BoxAllLaws(rects: seq<Rect>, r: Rect)
    requires |rects| >= 1
    ensures forall k :: 0 <= k < |rects| ==> Within(rects[k], BoxAll(rects))
    ensures (forall k :: 0 <= k < |rects| ==> Within(rects[k], r)) ==> Within(BoxAll(rects), r)
  {
    if |rects| > 1 {
      var init := rects[..|rects| - 1];
      var last := rects[|rects| - 1];
      BoxAllLaws(init, r);
      BoxLaws(BoxAll(init), last, r);
      forall k | 0 <= k < |rects| ensures Within(rects[k], BoxAll(rects)) {
        if k < |rects| - 1 {
          assert rects[k] == init[k];
          WithinLaws(rects[k], BoxAll(init), BoxAll(rects), rects[k].p);
        }
      }
      if forall k :: 0 <= k < |rects| ==> Within(rects[k], r) {
        assert forall k :: 0 <= k < |init| ==> Within(init[k], r) by {
          forall k | 0 <= k < |init| ensures Within(init[k], r) {
            assert init[k] == rects[k];
          }
        }
      }
    }
  }
}
