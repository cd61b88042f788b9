/** The tick scheduler (game/ticker.go): a list of objects ordered by the
  * tick they wait for, and the tick being processed. The source keeps both
  * in package globals and the list in a `container/list`; here they are the
  * two fields of a `Scheduler`, the list a sequence. A callback is known by
  * its identity, and running one is recording it, in order, in what
  * `TickScheduled` returns. */
module Ticker {
  /** A scheduled callback, known by its identity. */
  type Callback = nat

  datatype TickObject = TickObject(targetTick: int, callback: Callback)

  /** Target ticks never decrease along the list. */
  predicate Sorted(xs: seq<TickObject>)
  {
    forall i, j :: 0 <= i < j < |xs| ==> xs[i].targetTick <= xs[j].targetTick
  }

  /** Where `insertTickObject` puts an object waiting for tick `t`: before
    * the first object that waits for a later tick, or at the end. */
  function InsertPos(xs: seq<TickObject>, t: int): (p: nat)
    ensures p <= |xs|
    ensures forall i :: 0 <= i < p ==> xs[i].targetTick <= t
    ensures p < |xs| ==> xs[p].targetTick > t
  {
    if xs == [] || xs[0].targetTick > t then 0 else 1 + InsertPos(xs[1..], t)
  }

  /** The position is the only one with those two properties. */
  lemma {:induction false} InsertPosIs(xs: seq<TickObject>, t: int, p: nat)
    requires p <= |xs|
    requires forall i :: 0 <= i < p ==> xs[i].targetTick <= t
    requires p < |xs| ==> xs[p].targetTick > t
    ensures InsertPos(xs, t) == p
  {
    if p > 0 {
      assert xs[0].targetTick <= t;
      assert forall i :: 0 <= i < p - 1 ==> xs[1..][i].targetTick <= t by {
        forall i | 0 <= i < p - 1 ensures xs[1..][i].targetTick <= t {
          assert xs[1..][i] == xs[i + 1];
        }
      }
      InsertPosIs(xs[1..], t, p - 1);
    }
  }

  /** The list after `insertTickObject(el)`. */
  function Inserted(xs: seq<TickObject>, el: TickObject): (r: seq<TickObject>)
    ensures |r| == |xs| + 1
  {
    var p := InsertPos(xs, el.targetTick);
    xs[..p] + [el] + xs[p..]
  }

  /** Insertion keeps the list sorted. */
  lemma InsertedKeepsSorted(xs: seq<TickObject>, el: TickObject)
    requires Sorted(xs)
    ensures Sorted(Inserted(xs, el))
  {
    var p := InsertPos(xs, el.targetTick);
    var r := Inserted(xs, el);
    forall i, j | 0 <= i < j < |r| ensures r[i].targetTick <= r[j].targetTick {
      var xi := if i < p then i else i - 1;
      var xj := if j <= p then j else j - 1;
      if i == p {
        assert r[i] == el;
        assert r[j] == xs[j - 1] && j - 1 >= p;
        assert xs[p].targetTick > el.targetTick;
      } else if j == p {
        assert r[j] == el && r[i] == xs[i];
      } else {
        assert r[i] == xs[xi] && r[j] == xs[xj] && xi < xj;
      }
    }
  }

  /** Insertion adds exactly the new object. */
  lemma InsertedIsPermutation(xs: seq<TickObject>, el: TickObject)
    ensures multiset(Inserted(xs, el)) == multiset(xs) + multiset{el}
  {
    var p := InsertPos(xs, el.targetTick);
    assert xs == xs[..p] + xs[p..];
  }

  /** Taking the new object out gives back the old list: the others keep
    * their relative order. */
  lemma InsertedKeepsOrder(xs: seq<TickObject>, el: TickObject)
    ensures var p := InsertPos(xs, el.targetTick);
      Inserted(xs, el)[p] == el && Inserted(xs, el)[..p] + Inserted(xs, el)[p + 1..] == xs
  {
    var p := InsertPos(xs, el.targetTick);
    var a, b := xs[..p], xs[p..];
    var r := Inserted(xs, el);
    assert r == a + [el] + b;
    assert |a| == p;
    assert r[..p] == a;
    assert r[p + 1..] == b;
    assert a + b == xs;
  }

  /** FIFO among equals: the new object comes after every object that waits
    * for the same tick or an earlier one, and in a sorted list before every
    * object that waits for a later tick. */
  lemma InsertedAfterEquals(xs: seq<TickObject>, el: TickObject)
    ensures var p := InsertPos(xs, el.targetTick); var r := Inserted(xs, el);
      r[p] == el &&
      (forall i :: 0 <= i < p ==> r[i].targetTick <= el.targetTick) &&
      (Sorted(xs) ==> forall i :: p < i < |r| ==> r[i].targetTick > el.targetTick)
  {
    var p := InsertPos(xs, el.targetTick);
    var r := Inserted(xs, el);
    assert forall i :: 0 <= i < p ==> r[i] == xs[i];
    if Sorted(xs) {
      forall i | p < i < |r| ensures r[i].targetTick > el.targetTick {
        assert r[i] == xs[i - 1];
      }
    }
  }

  /** The length of the leading run of objects that wait for tick `t`. */
  function DueCount(xs: seq<TickObject>, t: int): (n: nat)
    ensures n <= |xs|
    ensures forall i :: 0 <= i < n ==> xs[i].targetTick == t
    ensures n < |xs| ==> xs[n].targetTick != t
  {
    if xs == [] || xs[0].targetTick != t then 0 else 1 + DueCount(xs[1..], t)
  }

  lemma {:induction false} DueCountIs(xs: seq<TickObject>, t: int, n: nat)
    requires n <= |xs|
    requires forall i :: 0 <= i < n ==> xs[i].targetTick == t
    requires n < |xs| ==> xs[n].targetTick != t
    ensures DueCount(xs, t) == n
  {
    if n > 0 {
      forall i | 0 <= i < n - 1 ensures xs[1..][i].targetTick == t {
        assert xs[1..][i] == xs[i + 1];
      }
      DueCountIs(xs[1..], t, n - 1);
    }
  }

  /** In a sorted list with nothing overdue, the leading run is exactly the
    * objects that wait for tick `t`. */
  lemma DueAreAllDue(xs: seq<TickObject>, t: int)
    requires Sorted(xs) && forall i :: 0 <= i < |xs| ==> xs[i].targetTick >= t
    ensures forall i :: 0 <= i < |xs| ==> (xs[i].targetTick == t <==> i < DueCount(xs, t))
  {
    var n := DueCount(xs, t);
    forall i | n <= i < |xs| ensures xs[i].targetTick != t {
      assert xs[n].targetTick > t;
    }
  }

  /** An overdue object at the head of the list blocks every later one. */
  lemma OverdueBlocks(xs: seq<TickObject>, t: int)
    requires xs != [] && xs[0].targetTick < t
    ensures DueCount(xs, t) == 0
  {
  }

  /** Nothing in game/ticker.go advances `currentTick`, so the drain always
    * compares with the same tick. An object registered for any other tick
    * is not in the run the drain removes, whatever the list. */
  lemma OtherTickNotDue(xs: seq<TickObject>, el: TickObject, t: int)
    requires el.targetTick != t
    ensures DueCount(Inserted(xs, el), t) <= InsertPos(xs, el.targetTick)
  {
    var p := InsertPos(xs, el.targetTick);
    assert Inserted(xs, el)[p] == el;
  }

  /** The callbacks of a list of objects, in order. */
  function Callbacks(xs: seq<TickObject>): (r: seq<Callback>)
    ensures |r| == |xs|
    ensures forall i :: 0 <= i < |xs| ==> r[i] == xs[i].callback
  {
    if xs == [] then [] else Callbacks(xs[..|xs| - 1]) + [xs[|xs| - 1].callback]
  }

  class Scheduler {
    /** `currentTick`: the tick being processed. */
    var currentTick: int
    /** `tickedObjects`, front first. */
    var objects: seq<TickObject>

    constructor ()
      ensures currentTick == 0 && objects == []
    {
      currentTick := 0;
      objects := [];
    }

    /** `insertTickObject`: walks the list to the first object waiting for
      * a later tick and inserts before it, or appends. */
    method Insert(el: TickObject)
      modifies this
      ensures objects == Inserted(old(objects), el)
      ensures currentTick == old(currentTick)
    {
      var i := 0;
      while i < |objects|
        invariant 0 <= i <= |objects| && objects == old(objects)
        invariant forall k :: 0 <= k < i ==> objects[k].targetTick <= el.targetTick
      {
        if objects[i].targetTick > el.targetTick {
          InsertPosIs(objects, el.targetTick, i);
          objects := objects[..i] + [el] + objects[i..];
          return;
        }
        i := i + 1;
      }
      InsertPosIs(objects, el.targetTick, i);
      assert objects[i..] == [];
      objects := objects + [el];
    }

    /** `tickScheduledObjects`: runs and removes the objects at the front
      * that wait for the current tick, and stops at the first that does
      * not. */
    method TickScheduled() returns (fired: seq<Callback>)
      modifies this
      ensures var n := DueCount(old(objects), currentTick);
        fired == Callbacks(old(objects)[..n]) && objects == old(objects)[n..]
      ensures currentTick == old(currentTick)
    {
      fired := [];
      ghost var n := 0;
      while objects != []
        invariant n <= |old(objects)| && objects == old(objects)[n..]
        invariant forall k :: 0 <= k < n ==> old(objects)[k].targetTick == currentTick
        invariant fired == Callbacks(old(objects)[..n])
        invariant currentTick == old(currentTick)
        decreases |objects|
      {
        var val := objects[0];
        if val.targetTick == currentTick {
          fired := fired + [val.callback];
          assert old(objects)[..n + 1][..n] == old(objects)[..n];
          objects := objects[1..];
          n := n + 1;
        } else {
          break;
        }
      }
      DueCountIs(old(objects), currentTick, n);
    }

    /** `RegisterForTick`: schedules `cb` for `ticks` ticks after the
      * current one. */
    method RegisterForTick(cb: Callback, ticks: int)
      modifies this
      ensures objects == Inserted(old(objects), TickObject(old(currentTick) + ticks, cb))
      ensures currentTick == old(currentTick)
    {
      Insert(TickObject(currentTick + ticks, cb));
    }
  }
}
