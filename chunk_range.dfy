/** `forEachChunkInRange` (game/helpers.go): two nested loops that call a
  * callback for every chunk in a square around a centre. The callback is
  * modelled by recording each pair it is called with, in call order. */
module ChunkRange {
  /** The pairs the inner loop visits for one `x`: `z` from `z0` up to but
    * not including `z1`. */
  function Row(x: int, z0: int, z1: int): seq<(int, int)>
    decreases z1 - z0
  {
    if z1 <= z0 then [] else Row(x, z0, z1 - 1) + [(x, z1 - 1)]
  }

  /** The pairs the outer loop visits for `x` from `x0` up to but not
    * including `x1`. */
  function Rows(x0: int, x1: int, z0: int, z1: int): seq<(int, int)>
    decreases x1 - x0
  {
    if x1 <= x0 then [] else Rows(x0, x1 - 1, z0, z1) + Row(x1 - 1, z0, z1)
  }

  /** The low and high ends of the square around `c`: `r + 2` below the
    * centre, and `r + 2` above it with the upper bound exclusive. */
  function Low(c: int, radius: int): int { c - radius - 2 }
  function High(c: int, radius: int): int { c + radius + 2 }

  /** Every pair `forEachChunkInRange(x0, y0, radius)` visits, in order. */
  function Visits(x0: int, y0: int, radius: int): seq<(int, int)>
  {
    Rows(Low(x0, radius), High(x0, radius), Low(y0, radius), High(y0, radius))
  }

  method ForEachChunkInRange(x0: int, y0: int, radius: int) returns (visited: seq<(int, int)>)
    ensures visited == Visits(x0, y0, radius)
  {
    visited := [];
    var x := x0 - radius - 2;
    while x < x0 + radius + 2
      invariant Low(x0, radius) <= x
      invariant x <= High(x0, radius) || x == Low(x0, radius)
      invariant visited == Rows(Low(x0, radius), x, Low(y0, radius), High(y0, radius))
      decreases x0 + radius + 2 - x
    {
      ghost var before := visited;
      var z := y0 - radius - 2;
      while z < y0 + radius + 2
        invariant Low(y0, radius) <= z && (z <= High(y0, radius) || z == Low(y0, radius))
        invariant visited == before + Row(x, Low(y0, radius), z)
        decreases y0 + radius + 2 - z
      {
        visited := visited + [(x, z)];
        z := z + 1;
      }
      assert Row(x, Low(y0, radius), z) == Row(x, Low(y0, radius), High(y0, radius));
      x := x + 1;
    }
  }

  lemma {:induction false} RowLength(x: int, z0: int, z1: int)
    ensures |Row(x, z0, z1)| == if z1 <= z0 then 0 else z1 - z0
    decreases z1 - z0
  {
    if z1 > z0 {
      RowLength(x, z0, z1 - 1);
    }
  }

  lemma {:induction false} RowsLength(x0: int, x1: int, z0: int, z1: int)
    ensures |Rows(x0, x1, z0, z1)| == if x1 <= x0 || z1 <= z0 then 0 else (x1 - x0) * (z1 - z0)
    decreases x1 - x0
  {
    if x1 > x0 {
      RowsLength(x0, x1 - 1, z0, z1);
      RowLength(x1 - 1, z0, z1);
      if z1 > z0 && x1 - 1 > x0 {
        assert (x1 - 1 - x0) * (z1 - z0) + (z1 - z0) == (x1 - x0) * (z1 - z0);
      }
    }
  }

  /** The callback runs `(2r + 4)^2` times when `2r + 4 >= 0`, and not at
    * all otherwise. */
  lemma VisitCount(x0: int, y0: int, radius: int)
    ensures |Visits(x0, y0, radius)| == if 2 * radius + 4 <= 0 then 0 else (2 * radius + 4) * (2 * radius + 4)
  {
    RowsLength(Low(x0, radius), High(x0, radius), Low(y0, radius), High(y0, radius));
  }

  lemma {:induction false} InRow(x: int, z0: int, z1: int, p: (int, int))
    ensures p in Row(x, z0, z1) <==> p.0 == x && z0 <= p.1 < z1
    decreases z1 - z0
  {
    if z1 > z0 {
      InRow(x, z0, z1 - 1, p);
    }
  }

  lemma {:induction false} InRows(x0: int, x1: int, z0: int, z1: int, p: (int, int))
    ensures p in Rows(x0, x1, z0, z1) <==> x0 <= p.0 < x1 && z0 <= p.1 < z1
    decreases x1 - x0
  {
    if x1 > x0 {
      InRows(x0, x1 - 1, z0, z1, p);
      InRow(x1 - 1, z0, z1, p);
    }
  }

  /** The callback sees `(x, z)` exactly when `x0 - r - 2 <= x < x0 + r + 2`
    * and `y0 - r - 2 <= z < y0 + r + 2`. */
  lemma VisitsExactly(x0: int, y0: int, radius: int, x: int, z: int)
    ensures (x, z) in Visits(x0, y0, radius) <==>
      x0 - radius - 2 <= x < x0 + radius + 2 && y0 - radius - 2 <= z < y0 + radius + 2
  {
    InRows(Low(x0, radius), High(x0, radius), Low(y0, radius), High(y0, radius), (x, z));
  }

  /** The square reaches `r + 2` chunks below the centre but only `r + 1`
    * above it. */
  lemma Lopsided(x0: int, y0: int, radius: int)
    requires radius >= -1
    ensures (x0 - radius - 2, y0) in Visits(x0, y0, radius)
    ensures (x0 + radius + 1, y0) in Visits(x0, y0, radius)
    ensures (x0 + radius + 2, y0) !in Visits(x0, y0, radius)
  {
    VisitsExactly(x0, y0, radius, x0 - radius - 2, y0);
    VisitsExactly(x0, y0, radius, x0 + radius + 1, y0);
    VisitsExactly(x0, y0, radius, x0 + radius + 2, y0);
  }

  /** `a` comes before `b` when it has a smaller x, or the same x and a
    * smaller z. */
  predicate Before(a: (int, int), b: (int, int))
  {
    a.0 < b.0 || (a.0 == b.0 && a.1 < b.1)
  }

  predicate Increasing(s: seq<(int, int)>)
  {
    forall i, j :: 0 <= i < j < |s| ==> Before(s[i], s[j])
  }

  lemma {:induction false} RowIncreasing(x: int, z0: int, z1: int)
    ensures Increasing(Row(x, z0, z1))
    ensures forall i :: 0 <= i < |Row(x, z0, z1)| ==> Row(x, z0, z1)[i].0 == x && Row(x, z0, z1)[i].1 < z1
    decreases z1 - z0
  {
    if z1 > z0 {
      RowIncreasing(x, z0, z1 - 1);
    }
  }

  lemma {:induction false} RowsIncreasing(x0: int, x1: int, z0: int, z1: int)
    ensures Increasing(Rows(x0, x1, z0, z1))
    ensures forall i :: 0 <= i < |Rows(x0, x1, z0, z1)| ==> Rows(x0, x1, z0, z1)[i].0 < x1
    decreases x1 - x0
  {
    if x1 > x0 {
      RowsIncreasing(x0, x1 - 1, z0, z1);
      RowIncreasing(x1 - 1, z0, z1);
      var a := Rows(x0, x1 - 1, z0, z1);
      var b := Row(x1 - 1, z0, z1);
      var s := a + b;
      forall i, j | 0 <= i < j < |s| ensures Before(s[i], s[j]) {
        if j < |a| {
          assert s[i] == a[i] && s[j] == a[j];
        } else if i >= |a| {
          assert s[i] == b[i - |a|] && s[j] == b[j - |a|];
        } else {
          assert s[i] == a[i] && s[j] == b[j - |a|];
        }
      }
    }
  }

  /** Each pair is visited once, x-major then z, both ascending. */
  lemma VisitsInOrder(x0: int, y0: int, radius: int)
    ensures Increasing(Visits(x0, y0, radius))
    ensures forall i, j :: 0 <= i < j < |Visits(x0, y0, radius)| ==> Visits(x0, y0, radius)[i] != Visits(x0, y0, radius)[j]
  {
    RowsIncreasing(Low(x0, radius), High(x0, radius), Low(y0, radius), High(y0, radius));
  }
}
