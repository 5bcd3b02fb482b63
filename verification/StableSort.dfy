/** Sorting timeline entries by timestamp, keeping the order of equal timestamps. */
module StableSort {
  datatype Entry<Ev, Co> =
    | NodeEntry(time: int, node: string, event: Ev)
    | CoordinatorEntry(time: int, state: Co)

  ghost predicate Sorted<Ev, Co>(s: seq<Entry<Ev, Co>>)
  {
    forall i, j :: 0 <= i < j < |s| ==> s[i].time <= s[j].time
  }

  // Behind everything that is not later.
  function Insert<Ev, Co>(s: seq<Entry<Ev, Co>>, e: Entry<Ev, Co>): (r: seq<Entry<Ev, Co>>)
    ensures |r| == |s| + 1
  {
    if s == [] || s[|s| - 1].time <= e.time then s + [e]
    else Insert(s[..|s| - 1], e) + [s[|s| - 1]]
  }

  function Sort<Ev, Co>(s: seq<Entry<Ev, Co>>): (r: seq<Entry<Ev, Co>>)
    ensures |r| == |s|
  {
    if s == [] then [] else Insert(Sort(s[..|s| - 1]), s[|s| - 1])
  }

  // The entries of one instant, in order.
  function AtTime<Ev, Co>(s: seq<Entry<Ev, Co>>, t: int): (r: seq<Entry<Ev, Co>>)
  {
    if s == [] then []
    else AtTime(s[..|s| - 1], t) + if s[|s| - 1].time == t then [s[|s| - 1]] else []
  }

  // Same entries at every instant, in the same order: a stable rearrangement.
  ghost predicate SameInstants<Ev, Co>(a: seq<Entry<Ev, Co>>, b: seq<Entry<Ev, Co>>)
  {
    forall t :: AtTime(a, t) == AtTime(b, t)
  }

  lemma {:induction false} AtTimeAppend<Ev, Co>(a: seq<Entry<Ev, Co>>, b: seq<Entry<Ev, Co>>, t: int)
    ensures AtTime(a + b, t) == AtTime(a, t) + AtTime(b, t)
  {
    if b == [] {
      assert a + b == a;
    } else {
      var last := |b| - 1;
      AtTimeAppend(a, b[..last], t);
      assert (a + b)[..|a + b| - 1] == a + b[..last];
    }
  }

  lemma {:induction false} InsertInstants<Ev, Co>(s: seq<Entry<Ev, Co>>, e: Entry<Ev, Co>, t: int)
    requires Sorted(s)
    ensures AtTime(Insert(s, e), t) == AtTime(s, t) + if e.time == t then [e] else []
  {
    if s == [] || s[|s| - 1].time <= e.time {
      assert (s + [e])[..|s|] == s;
    } else {
      var front, last := s[..|s| - 1], s[|s| - 1];
      InsertInstants(front, e, t);
      var r := Insert(s, e);
      assert r[..|r| - 1] == Insert(front, e);
    }
  }

  ghost predicate AtMost<Ev, Co>(s: seq<Entry<Ev, Co>>, t: int)
  {
    forall k :: 0 <= k < |s| ==> s[k].time <= t
  }

  lemma {:induction false} InsertAtMost<Ev, Co>(s: seq<Entry<Ev, Co>>, e: Entry<Ev, Co>, t: int)
    requires AtMost(s, t) && e.time <= t
    ensures AtMost(Insert(s, e), t)
  {
    if !(s == [] || s[|s| - 1].time <= e.time) {
      InsertAtMost(s[..|s| - 1], e, t);
    }
  }

  lemma {:induction false} InsertSorted<Ev, Co>(s: seq<Entry<Ev, Co>>, e: Entry<Ev, Co>)
    requires Sorted(s)
    ensures Sorted(Insert(s, e))
  {
    if !(s == [] || s[|s| - 1].time <= e.time) {
      var front := s[..|s| - 1];
      InsertSorted(front, e);
      InsertAtMost(front, e, s[|s| - 1].time);
    }
  }

  // Sorted, and every instant keeps its entries in order.
  lemma {:induction false} SortIsStable<Ev, Co>(s: seq<Entry<Ev, Co>>)
    ensures Sorted(Sort(s)) && SameInstants(Sort(s), s)
  {
    if s != [] {
      var front, last := s[..|s| - 1], s[|s| - 1];
      SortIsStable(front);
      InsertSorted(Sort(front), last);
      forall t
        ensures AtTime(Sort(s), t) == AtTime(s, t)
      {
        InsertInstants(Sort(front), last, t);
      }
    }
  }

  lemma {:induction false} AtTimeHas<Ev, Co>(s: seq<Entry<Ev, Co>>, i: nat)
    requires i < |s|
    ensures AtTime(s, s[i].time) != []
  {
    if i < |s| - 1 {
      AtTimeHas(s[..|s| - 1], i);
    }
  }

  lemma {:induction false} AtTimeOnly<Ev, Co>(s: seq<Entry<Ev, Co>>, t: int) returns (i: nat)
    requires AtTime(s, t) != []
    ensures i < |s| && s[i].time == t
  {
    if s[|s| - 1].time == t {
      i := |s| - 1;
    } else {
      i := AtTimeOnly(s[..|s| - 1], t);
    }
  }

  // The latest instant of one is the latest of the other.
  lemma SameLatest<Ev, Co>(a: seq<Entry<Ev, Co>>, b: seq<Entry<Ev, Co>>)
    requires a != [] && Sorted(a) && Sorted(b) && SameInstants(a, b)
    ensures b != [] && a[|a| - 1].time <= b[|b| - 1].time
  {
    AtTimeHas(a, |a| - 1);
    var i := AtTimeOnly(b, a[|a| - 1].time);
  }

  lemma SnocCancel<T>(p: seq<T>, x: T, q: seq<T>, y: T)
    requires p + [x] == q + [y]
    ensures p == q && x == y
  {
    assert (p + [x])[..|p|] == p && (q + [y])[..|q|] == q;
    assert (p + [x])[|p|] == x && (q + [y])[|q|] == y;
  }

  lemma SameInstantsOfFronts<Ev, Co>(a: seq<Entry<Ev, Co>>, b: seq<Entry<Ev, Co>>)
    requires a != [] && b != [] && SameInstants(a, b) && a[|a| - 1].time == b[|b| - 1].time
    ensures a[|a| - 1] == b[|b| - 1] && SameInstants(a[..|a| - 1], b[..|b| - 1])
  {
    var x, y := a[|a| - 1], b[|b| - 1];
    var p, q := a[..|a| - 1], b[..|b| - 1];
    assert AtTime(a, x.time) == AtTime(b, x.time);
    SnocCancel(AtTime(p, x.time), x, AtTime(q, x.time), y);
    forall t: int
      ensures AtTime(p, t) == AtTime(q, t)
    {
      assert AtTime(a, t) == AtTime(b, t);
      if t != x.time {
        assert AtTime(a, t) == AtTime(p, t) && AtTime(b, t) == AtTime(q, t);
      }
    }
  }

  // There is only one sorted stable rearrangement.
  lemma {:induction false} SortIsUnique<Ev, Co>(a: seq<Entry<Ev, Co>>, b: seq<Entry<Ev, Co>>)
    requires Sorted(a) && Sorted(b) && SameInstants(a, b)
    ensures a == b
  {
    if a == [] {
      if b != [] {
        SameLatest(b, a);
      }
    } else {
      SameLatest(a, b);
      SameLatest(b, a);
      SameInstantsOfFronts(a, b);
      SortIsUnique(a[..|a| - 1], b[..|b| - 1]);
    }
  }

  lemma {:induction false} SortKeepsEntries<Ev, Co>(s: seq<Entry<Ev, Co>>)
    ensures multiset(Sort(s)) == multiset(s)
  {
    if s != [] {
      var front, last := s[..|s| - 1], s[|s| - 1];
      SortKeepsEntries(front);
      InsertKeepsEntries(Sort(front), last);
      assert s == front + [last];
    }
  }

  lemma {:induction false} InsertKeepsEntries<Ev, Co>(s: seq<Entry<Ev, Co>>, e: Entry<Ev, Co>)
    ensures multiset(Insert(s, e)) == multiset(s) + multiset{e}
  {
    if !(s == [] || s[|s| - 1].time <= e.time) {
      var front, last := s[..|s| - 1], s[|s| - 1];
      InsertKeepsEntries(front, e);
      assert s == front + [last];
    }
  }

  lemma AppendInstants<Ev, Co>(
    a: seq<Entry<Ev, Co>>, b: seq<Entry<Ev, Co>>, a': seq<Entry<Ev, Co>>, b': seq<Entry<Ev, Co>>)
    requires SameInstants(a, a') && SameInstants(b, b')
    ensures SameInstants(a + b, a' + b')
  {
    forall t
      ensures AtTime(a + b, t) == AtTime(a' + b', t)
    {
      AtTimeAppend(a, b, t);
      AtTimeAppend(a', b', t);
    }
  }

  // Sorting in batches is sorting once.
  lemma SortInBatches<Ev, Co>(a: seq<Entry<Ev, Co>>, b: seq<Entry<Ev, Co>>)
    ensures Sort(Sort(a) + Sort(b)) == Sort(a + b)
  {
    SortIsStable(a);
    SortIsStable(b);
    SortIsStable(a + b);
    SortIsStable(Sort(a) + Sort(b));
    AppendInstants(Sort(a), Sort(b), a, b);
    SortIsUnique(Sort(Sort(a) + Sort(b)), Sort(a + b));
  }

  // A later batch can simply be appended.
  lemma JoinedSorted<Ev, Co>(a: seq<Entry<Ev, Co>>, b: seq<Entry<Ev, Co>>)
    requires Sorted(a) && Sorted(b) && (a == [] || b == [] || a[|a| - 1].time <= b[0].time)
    ensures Sorted(a + b)
  {
  }

  lemma SortLaterBatch<Ev, Co>(a: seq<Entry<Ev, Co>>, b: seq<Entry<Ev, Co>>)
    requires a == [] || b == [] || Sort(a)[|a| - 1].time <= Sort(b)[0].time
    ensures Sort(a) + Sort(b) == Sort(a + b)
  {
    SortIsStable(a);
    SortIsStable(b);
    SortIsStable(a + b);
    JoinedSorted(Sort(a), Sort(b));
    AppendInstants(Sort(a), Sort(b), a, b);
    SameAsSorted(Sort(a) + Sort(b), a + b);
  }

  lemma SameAsSorted<Ev, Co>(s: seq<Entry<Ev, Co>>, all: seq<Entry<Ev, Co>>)
    requires Sorted(s) && SameInstants(s, all)
    ensures s == Sort(all)
  {
    SortIsStable(all);
    SortIsUnique(s, Sort(all));
  }

  lemma SortOfSorted<Ev, Co>(a: seq<Entry<Ev, Co>>)
    requires Sorted(a)
    ensures Sort(a) == a
  {
    SortIsStable(a);
    SortIsUnique(Sort(a), a);
  }

  ghost predicate AtLeast<Ev, Co>(s: seq<Entry<Ev, Co>>, t: int)
  {
    forall k :: 0 <= k < |s| ==> t <= s[k].time
  }

  lemma SortAtLeast<Ev, Co>(s: seq<Entry<Ev, Co>>, t: int)
    requires AtLeast(s, t)
    ensures AtLeast(Sort(s), t)
  {
    SortKeepsEntries(s);
    forall k | 0 <= k < |Sort(s)|
      ensures t <= Sort(s)[k].time
    {
      assert Sort(s)[k] in multiset(s);
    }
  }

  // The first n entries are sorted, and nothing behind them or among the new ones is older.
  ghost predicate Settled<Ev, Co>(existing: seq<Entry<Ev, Co>>, more: seq<Entry<Ev, Co>>, n: nat)
    requires n <= |existing|
  {
    Sorted(existing[..n]) && (n > 0 ==> AtLeast(existing[n..] + more, existing[n - 1].time))
  }

  lemma SettledStays<Ev, Co>(existing: seq<Entry<Ev, Co>>, more: seq<Entry<Ev, Co>>, n: nat)
    requires n <= |existing| && Settled(existing, more, n)
    ensures Sort(existing + more)[..n] == existing[..n]
  {
    if n > 0 {
      var front, rest := existing[..n], existing[n..] + more;
      assert existing + more == front + rest;
      SortOfSorted(front);
      SortAtLeast(rest, front[n - 1].time);
      SortLaterBatch(front, rest);
    }
  }

  lemma SameRest<T>(a: seq<T>, b: seq<T>, c: seq<T>)
    requires multiset(a + b) == multiset(a + c)
    ensures multiset(b) == multiset(c)
  {
    assert multiset(a) + multiset(b) == multiset(a) + multiset(c);
    assert multiset(b) == (multiset(a) + multiset(b)) - multiset(a);
  }

  lemma RestIsLater<Ev, Co>(merged: seq<Entry<Ev, Co>>, front: seq<Entry<Ev, Co>>, rest: seq<Entry<Ev, Co>>)
    requires Sorted(merged) && front <= merged && multiset(merged) == multiset(front + rest)
    ensures Sorted(front) && (front != [] ==> AtLeast(rest, front[|front| - 1].time))
  {
    var tail := merged[|front|..];
    assert merged == front + tail;
    SameRest(front, tail, rest);
    forall k | 0 <= k < |rest| && front != []
      ensures front[|front| - 1].time <= rest[k].time
    {
      assert rest[k] in multiset(tail);
      var j :| 0 <= j < |tail| && tail[j] == rest[k];
      assert merged[|front| - 1] == front[|front| - 1] && merged[|front| + j] == tail[j];
    }
  }

  lemma SortIsSorted<Ev, Co>(s: seq<Entry<Ev, Co>>)
    ensures Sorted(Sort(s))
  {
    SortIsStable(s);
  }

  lemma StaysSettled<Ev, Co>(
    merged: seq<Entry<Ev, Co>>, existing: seq<Entry<Ev, Co>>, more: seq<Entry<Ev, Co>>, n: nat)
    requires Sorted(merged) && multiset(merged) == multiset(existing + more)
    requires n <= |existing| && n <= |merged| && merged[..n] == existing[..n]
    ensures Settled(existing, more, n)
  {
    var front, rest := existing[..n], existing[n..] + more;
    assert existing + more == front + rest;
    RestIsLater(merged, front, rest);
  }

  // A merge leaves the first n entries where they are exactly when they are settled.
  lemma MergeKeepsPrefixIff<Ev, Co>(existing: seq<Entry<Ev, Co>>, more: seq<Entry<Ev, Co>>, n: nat)
    requires n <= |existing|
    ensures Sort(existing + more)[..n] == existing[..n] <==> Settled(existing, more, n)
  {
    if Settled(existing, more, n) {
      SettledStays(existing, more, n);
    } else if Sort(existing + more)[..n] == existing[..n] {
      SortIsSorted(existing + more);
      SortKeepsEntries(existing + more);
      StaysSettled(Sort(existing + more), existing, more, n);
    }
  }

  // In a sorted list everything before the first new instant is settled.
  lemma SortedIsSettled<Ev, Co>(existing: seq<Entry<Ev, Co>>, more: seq<Entry<Ev, Co>>, m: nat, n: nat)
    requires Sorted(existing) && Sorted(more) && more != [] && n <= m <= |existing|
    requires m > 0 ==> existing[m - 1].time < more[0].time
    ensures Settled(existing, more, n)
  {
  }
}
