/** The interval index: closed intervals keyed by where they start. */
module IntervalTrees {
  import opened Wrappers

  type ClosedInterval = i: (int, int) | i.0 <= i.1 witness (0, 0)

  predicate Contains(i: ClosedInterval, p: int) { i.0 <= p <= i.1 }

  // Two intervals overlap when some point is in both.
  ghost predicate Overlaps(i: ClosedInterval, j: ClosedInterval) { exists p :: Contains(i, p) && Contains(j, p) }

  lemma OverlapsIff(i: ClosedInterval, j: ClosedInterval)
    ensures Overlaps(i, j) <==> i.0 <= j.1 && j.0 <= i.1
  {
    if i.0 <= j.1 && j.0 <= i.1 {
      var p := if i.0 <= j.0 then j.0 else i.0;
      assert Contains(i, p) && Contains(j, p);
    }
  }

  type Tree<!V> = map<int, (ClosedInterval, V)>

  ghost predicate KeyedByStart<V>(t: Tree<V>)
  {
    forall k :: k in t ==> t[k].0.0 == k
  }

  ghost predicate Disjoint<V>(t: Tree<V>)
  {
    forall j, k :: j in t && k in t && j != k ==> !Overlaps(t[j].0, t[k].0)
  }

  // The value of the interval that holds p.
  ghost predicate Holds<V>(t: Tree<V>, p: int, v: V)
  {
    exists k :: k in t && Contains(t[k].0, p) && t[k].1 == v
  }

  // The largest key at most p, or the smallest key at least p.
  ghost predicate IsFloor<V>(t: Tree<V>, p: int, r: Option<int>)
  {
    match r
    case None => forall k :: k in t ==> k > p
    case Some(f) => f in t && f <= p && forall k :: k in t && k <= p ==> k <= f
  }

  ghost predicate IsCeiling<V>(t: Tree<V>, p: int, r: Option<int>)
  {
    match r
    case None => forall k :: k in t ==> k < p
    case Some(c) => c in t && c >= p && forall k :: k in t && k >= p ==> k >= c
  }

  method AnyKey(keys: set<int>) returns (k: int)
    requires keys != {}
    ensures k in keys
  {
    NoKeyIff(keys);
    k :| k in keys;
  }

  lemma NoKeyIff(keys: set<int>)
    ensures keys == {} <==> forall k: int :: k !in keys
  {
    if forall k: int :: k !in keys {
      assert forall k: int :: k in keys <==> k in {};
    }
  }

  method Floor<V>(t: Tree<V>, p: int) returns (r: Option<int>)
    ensures IsFloor(t, p, r)
  {
    r := None;
    var keys: set<int> := t.Keys;
    while keys != {}
      invariant keys <= t.Keys
      invariant r.None? ==> forall k :: k in t && k !in keys ==> k > p
      invariant r.Some? ==> r.value in t && r.value <= p && forall k :: k in t && k !in keys && k <= p ==> k <= r.value
      decreases |keys|
    {
      var k := AnyKey(keys);
      if k <= p && (r.None? || k > r.value) {
        r := Some(k);
      }
      keys := keys - {k};
    }
  }

  method Ceiling<V>(t: Tree<V>, p: int) returns (r: Option<int>)
    ensures IsCeiling(t, p, r)
  {
    r := None;
    var keys: set<int> := t.Keys;
    while keys != {}
      invariant keys <= t.Keys
      invariant r.None? ==> forall k :: k in t && k !in keys ==> k < p
      invariant r.Some? ==> r.value in t && r.value >= p && forall k :: k in t && k !in keys && k >= p ==> k >= r.value
      decreases |keys|
    {
      var k := AnyKey(keys);
      if k >= p && (r.None? || k < r.value) {
        r := Some(k);
      }
      keys := keys - {k};
    }
  }

  // In a disjoint tree the interval before p ends before any later one starts, so the two neighbours decide.
  lemma NeighboursDecide<V>(t: Tree<V>, i: ClosedInterval, floor: Option<int>, ceiling: Option<int>)
    requires KeyedByStart(t) && Disjoint(t) && IsFloor(t, i.0, floor) && IsCeiling(t, i.0, ceiling)
    ensures (exists k :: k in t && Overlaps(t[k].0, i)) <==>
      (floor.Some? && t[floor.value].0.1 >= i.0) || (ceiling.Some? && t[ceiling.value].0.0 <= i.1)
  {
    forall k | k in t
      ensures Overlaps(t[k].0, i) <==> k <= i.1 && i.0 <= t[k].0.1
    {
      OverlapsIff(t[k].0, i);
    }
    if floor.Some? {
      forall k | k in t && k < floor.value
        ensures t[k].0.1 < floor.value
      {
        OverlapsIff(t[k].0, t[floor.value].0);
      }
    }
  }

  // The interval that starts last among those starting at or before p is the only one that can hold p.
  lemma FloorDecides<V>(t: Tree<V>, p: int, floor: Option<int>)
    requires KeyedByStart(t) && Disjoint(t) && IsFloor(t, p, floor)
    ensures forall k :: k in t && Contains(t[k].0, p) ==> floor == Some(k)
  {
    forall k | k in t && Contains(t[k].0, p)
      ensures floor == Some(k)
    {
      if floor.Some? && k != floor.value {
        OverlapsIff(t[k].0, t[floor.value].0);
      }
    }
  }

  class IntervalTree<V> {
    var tree: Tree<V>

    ghost predicate Valid()
      reads this
    {
      KeyedByStart(tree) && Disjoint(tree)
    }

    constructor ()
      ensures Valid() && tree == map[]
    {
      tree := map[];
    }

    method Clear()
      modifies this
      ensures Valid() && tree == map[]
    {
      tree := map[];
    }

    /** Succeeds exactly when the interval meets no stored one, though only two neighbours are looked at. */
    method Insert(interval: ClosedInterval, value: V) returns (ok: bool)
      requires Valid()
      modifies this
      ensures Valid()
      ensures ok <==> forall k :: k in old(tree) ==> !Overlaps(old(tree)[k].0, interval)
      ensures tree == if ok then old(tree)[interval.0 := (interval, value)] else old(tree)
    {
      var before := Floor(tree, interval.0);
      var after := Ceiling(tree, interval.0);
      NeighboursDecide(tree, interval, before, after);
      if before.Some? && tree[before.value].0.1 >= interval.0 {
        return false;
      }
      if after.Some? && tree[after.value].0.0 <= interval.1 {
        return false;
      }
      InsertKeepsDisjoint(tree, interval, value);
      tree := tree[interval.0 := (interval, value)];
      return true;
    }

    /** The value of the interval that holds the point. */
    method Get(point: int) returns (r: Option<V>)
      requires Valid()
      ensures forall v :: r == Some(v) <==> Holds(tree, point, v)
    {
      var before := Floor(tree, point);
      FloorDecides(tree, point, before);
      if before.Some? && Contains(tree[before.value].0, point) {
        return Some(tree[before.value].1);
      }
      return None;
    }
  }

  lemma InsertKeepsDisjoint<V>(t: Tree<V>, i: ClosedInterval, v: V)
    requires KeyedByStart(t) && Disjoint(t) && forall k :: k in t ==> !Overlaps(t[k].0, i)
    ensures KeyedByStart(t[i.0 := (i, v)]) && Disjoint(t[i.0 := (i, v)])
  {
    var t' := t[i.0 := (i, v)];
    forall j, k | j in t' && k in t' && j != k
      ensures !Overlaps(t'[j].0, t'[k].0)
    {
      if j == i.0 {
        OverlapsIff(t[k].0, i);
        OverlapsIff(i, t[k].0);
      } else if k == i.0 {
        OverlapsIff(t[j].0, i);
      }
    }
  }

  // A point is held by at most one value, an accepted interval adds its own points, and all others keep theirs.
  lemma InsertAddsItsPoints<V>(t: Tree<V>, i: ClosedInterval, v: V, p: int, w: V)
    requires KeyedByStart(t) && Disjoint(t) && forall k :: k in t ==> !Overlaps(t[k].0, i)
    ensures Holds(t[i.0 := (i, v)], p, w) <==> if Contains(i, p) then w == v else Holds(t, p, w)
  {
    var t' := t[i.0 := (i, v)];
    forall k | k in t && Contains(t[k].0, p)
      ensures !Contains(i, p) && k != i.0 && t'[k] == t[k]
    {
      assert !Overlaps(t[k].0, i);
      assert !Contains(i, p);
      OverlapsIff(t[k].0, i);
    }
    assert t'[i.0] == (i, v);
  }
}
