/** Lists that shrink in batches: who is still there, who left in which batch, and where a list of survivors
    followed by the batches stands against the list it came from. */
module ClientOrder {
  import opened Sequences

  // The elements of s that are, or are not, among those named, in order.
  function Among<T(==)>(s: seq<T>, who: seq<T>): (r: seq<T>)
  {
    if s == [] then [] else Among(s[..|s| - 1], who) + if s[|s| - 1] in who then [s[|s| - 1]] else []
  }

  function Outside<T(==)>(s: seq<T>, who: seq<T>): (r: seq<T>)
  {
    if s == [] then [] else Outside(s[..|s| - 1], who) + if s[|s| - 1] in who then [] else [s[|s| - 1]]
  }

  // One batch leaves a list; both parts keep their order.
  predicate Splits<T(==)>(s: seq<T>, kept: seq<T>, batch: seq<T>)
  {
    kept == Outside(s, batch) && batch == Among(s, batch)
  }

  // When x left: 0 while it has not, otherwise the number of its batch, counted from 1.
  function Turn<T(==)>(left: seq<seq<T>>, x: T): (k: nat)
    ensures k <= |left|
  {
    if left == [] then 0 else if x in left[|left| - 1] then |left| else Turn(left[..|left| - 1], x)
  }

  // Those of s that left at turn k, in order.
  function AtTurn<T(==)>(s: seq<T>, left: seq<seq<T>>, k: nat): (r: seq<T>)
  {
    if s == [] then []
    else AtTurn(s[..|s| - 1], left, k) + if Turn(left, s[|s| - 1]) == k then [s[|s| - 1]] else []
  }

  // Those of s that left at turns 1..n, batch after batch.
  function Since<T(==)>(s: seq<T>, left: seq<seq<T>>, n: nat): (r: seq<T>)
  {
    if n == 0 then [] else Since(s, left, n - 1) + AtTurn(s, left, n)
  }

  // Nobody left before somebody in front of it: whoever left had everybody behind leave with it or later.
  predicate InTurn<T(==)>(s: seq<T>, left: seq<seq<T>>)
  {
    forall i, j :: 0 <= i < j < |s| ==> Turn(left, s[i]) <= Turn(left, s[j])
  }

  // What is left of s, and those who left since.
  predicate Arranged<T(==)>(live: seq<T>, gone: seq<T>, left: seq<seq<T>>, s: seq<T>)
  {
    live == AtTurn(s, left, 0) && gone == Since(s, left, |left|)
  }

  // ------------------------------------------------------------------ turns

  lemma TurnPush<T>(left: seq<seq<T>>, batch: seq<T>, x: T)
    ensures Turn(left + [batch], x) == if x in batch then |left| + 1 else Turn(left, x)
  {
    assert (left + [batch])[..|left|] == left;
  }

  lemma {:induction false} AtTurnMembers<T>(s: seq<T>, left: seq<seq<T>>, k: nat, x: T)
    ensures x in AtTurn(s, left, k) <==> x in s && Turn(left, x) == k
  {
    if s != [] {
      AtTurnMembers(s[..|s| - 1], left, k, x);
      assert s == s[..|s| - 1] + [s[|s| - 1]];
    }
  }

  lemma {:induction false} AtTurnAppend<T>(a: seq<T>, b: seq<T>, left: seq<seq<T>>, k: nat)
    ensures AtTurn(a + b, left, k) == AtTurn(a, left, k) + AtTurn(b, left, k)
    decreases |b|
  {
    if b == [] {
      assert a + b == a;
    } else {
      AtTurnAppend(a, b[..|b| - 1], left, k);
      assert (a + b)[..|a + b| - 1] == a + b[..|b| - 1];
    }
  }

  // Nobody of s left at turn k, or everybody did.
  lemma {:induction false} AllAtTurn<T>(s: seq<T>, left: seq<seq<T>>, turn: nat, k: nat)
    requires forall i :: 0 <= i < |s| ==> Turn(left, s[i]) == turn
    ensures AtTurn(s, left, k) == if k == turn then s else []
  {
    if s != [] {
      AllAtTurn(s[..|s| - 1], left, turn, k);
      assert s == s[..|s| - 1] + [s[|s| - 1]];
    }
  }

  lemma {:induction false} NoneAtTurn<T>(s: seq<T>, left: seq<seq<T>>, k: nat)
    requires forall i :: 0 <= i < |s| ==> Turn(left, s[i]) != k
    ensures AtTurn(s, left, k) == []
  {
    if s != [] {
      NoneAtTurn(s[..|s| - 1], left, k);
    }
  }

  // ------------------------------------------------------------------ one more batch

  lemma {:induction false} AmongMembers<T>(s: seq<T>, who: seq<T>, x: T)
    ensures x in Among(s, who) <==> x in s && x in who
  {
    if s != [] {
      AmongMembers(s[..|s| - 1], who, x);
      assert s == s[..|s| - 1] + [s[|s| - 1]];
    }
  }

  // The survivors split, and earlier batches stay as they were.
  lemma {:induction false} TurnsAfter<T>(s: seq<T>, left: seq<seq<T>>, batch: seq<T>, k: nat)
    requires forall x :: x in batch ==> Turn(left, x) == 0
    ensures AtTurn(s, left + [batch], 0) == Outside(AtTurn(s, left, 0), batch)
    ensures AtTurn(s, left + [batch], |left| + 1) == Among(AtTurn(s, left, 0), batch)
    ensures 0 < k <= |left| ==> AtTurn(s, left + [batch], k) == AtTurn(s, left, k)
  {
    if s != [] {
      var front, last := s[..|s| - 1], s[|s| - 1];
      TurnsAfter(front, left, batch, k);
      TurnPush(left, batch, last);
      AtTurnPush(front, last, left, 0);
      AtTurnPush(front, last, left, k);
      AtTurnPush(front, last, left + [batch], 0);
      AtTurnPush(front, last, left + [batch], |left| + 1);
      AtTurnPush(front, last, left + [batch], k);
      assert s == front + [last];
      if Turn(left, last) == 0 {
        SplitPush(AtTurn(front, left, 0), last, batch);
      } else {
        assert last !in batch && AtTurn(front, left, 0) + [] == AtTurn(front, left, 0);
      }
    }
  }

  lemma SplitPush<T>(s: seq<T>, x: T, who: seq<T>)
    ensures Among(s + [x], who) == Among(s, who) + if x in who then [x] else []
    ensures Outside(s + [x], who) == Outside(s, who) + if x in who then [] else [x]
  {
    assert (s + [x])[..|s|] == s;
  }

  lemma {:induction false} SinceAfter<T>(s: seq<T>, left: seq<seq<T>>, batch: seq<T>, n: nat)
    requires (forall x :: x in batch ==> Turn(left, x) == 0) && n <= |left|
    ensures Since(s, left + [batch], n) == Since(s, left, n)
  {
    if n > 0 {
      SinceAfter(s, left, batch, n - 1);
      TurnsAfter(s, left, batch, n);
    }
  }

  lemma ArrangedNext<T>(live: seq<T>, gone: seq<T>, left: seq<seq<T>>, s: seq<T>, kept: seq<T>, batch: seq<T>)
    requires Arranged(live, gone, left, s) && Splits(live, kept, batch)
    ensures Arranged(kept, gone + batch, left + [batch], s)
  {
    forall x | x in batch
      ensures Turn(left, x) == 0
    {
      AmongMembers(live, batch, x);
      AtTurnMembers(s, left, 0, x);
    }
    TurnsAfter(s, left, batch, 0);
    SinceAfter(s, left, batch, |left|);
  }

  lemma {:induction false} NobodySince<T>(s: seq<T>, left: seq<seq<T>>, n: nat)
    requires forall i :: 0 <= i < |s| ==> Turn(left, s[i]) == 0
    ensures Since(s, left, n) == []
  {
    if n > 0 {
      NobodySince(s, left, n - 1);
      AllAtTurn(s, left, 0, n);
    }
  }

  // A list of which nobody has left.
  lemma ArrangedNew<T>(live: seq<T>, left: seq<seq<T>>)
    requires forall i :: 0 <= i < |live| ==> Turn(left, live[i]) == 0
    ensures Arranged(live, [], left, live)
  {
    AllAtTurn(live, left, 0, 0);
    NobodySince(live, left, |left|);
  }

  lemma {:induction false} OutsideNobody<T>(s: seq<T>)
    ensures Splits(s, s, [])
  {
    if s != [] {
      OutsideNobody(s[..|s| - 1]);
      assert s == s[..|s| - 1] + [s[|s| - 1]];
    }
  }

  // ------------------------------------------------------------------ the same list again

  // Survivors, then batches 1..n: s rearranged by turn.
  function ByTurn<T(==)>(s: seq<T>, left: seq<seq<T>>, n: nat): (r: seq<T>)
  {
    if n == 0 then AtTurn(s, left, 0) else ByTurn(s, left, n - 1) + AtTurn(s, left, n)
  }

  lemma {:induction false} ArrangedIsByTurn<T>(s: seq<T>, left: seq<seq<T>>, n: nat)
    ensures AtTurn(s, left, 0) + Since(s, left, n) == ByTurn(s, left, n)
  {
    if n > 0 {
      ArrangedIsByTurn(s, left, n - 1);
      ConcatAssociates(AtTurn(s, left, 0), Since(s, left, n - 1), AtTurn(s, left, n));
    }
  }

  // The rearranged list is in turn.
  lemma {:induction false} ByTurnInTurn<T>(s: seq<T>, left: seq<seq<T>>, n: nat)
    ensures forall i :: 0 <= i < |ByTurn(s, left, n)| ==> Turn(left, ByTurn(s, left, n)[i]) <= n
    ensures InTurn(ByTurn(s, left, n), left)
  {
    TurnsOf(s, left, n);
    if n > 0 {
      ByTurnInTurn(s, left, n - 1);
      ConcatInTurn(ByTurn(s, left, n - 1), AtTurn(s, left, n), left, n);
    }
  }

  lemma ConcatInTurn<T>(a: seq<T>, b: seq<T>, left: seq<seq<T>>, n: nat)
    requires InTurn(a, left) && n > 0 && forall i :: 0 <= i < |a| ==> Turn(left, a[i]) <= n - 1
    requires forall i :: 0 <= i < |b| ==> Turn(left, b[i]) == n
    ensures InTurn(a + b, left) && forall i :: 0 <= i < |a + b| ==> Turn(left, (a + b)[i]) <= n
  {
    forall i | 0 <= i < |a + b|
      ensures if i < |a| then Turn(left, (a + b)[i]) <= n - 1 else Turn(left, (a + b)[i]) == n
    {
      assert (a + b)[i] == if i < |a| then a[i] else b[i - |a|];
    }
  }

  lemma TurnsOf<T>(s: seq<T>, left: seq<seq<T>>, k: nat)
    ensures forall i :: 0 <= i < |AtTurn(s, left, k)| ==> Turn(left, AtTurn(s, left, k)[i]) == k
  {
    forall i | 0 <= i < |AtTurn(s, left, k)|
      ensures Turn(left, AtTurn(s, left, k)[i]) == k
    {
      AtTurnMembers(s, left, k, AtTurn(s, left, k)[i]);
    }
  }

  lemma AtTurnPush<T>(front: seq<T>, x: T, left: seq<seq<T>>, k: nat)
    ensures AtTurn(front + [x], left, k) == AtTurn(front, left, k) + if Turn(left, x) == k then [x] else []
  {
    assert (front + [x])[..|front|] == front;
  }

  // Before its own turn x is in no batch.
  lemma {:induction false} NotYet<T>(front: seq<T>, x: T, left: seq<seq<T>>, n: nat)
    requires Turn(left, x) > n
    ensures ByTurn(front + [x], left, n) == ByTurn(front, left, n)
  {
    AtTurnPush(front, x, left, n);
    if n > 0 {
      NotYet(front, x, left, n - 1);
    }
  }

  // A last element whose turn nobody is past stays last.
  lemma {:induction false} ByTurnPush<T>(front: seq<T>, x: T, left: seq<seq<T>>, n: nat)
    requires Turn(left, x) <= n && forall i :: 0 <= i < |front| ==> Turn(left, front[i]) <= Turn(left, x)
    ensures ByTurn(front + [x], left, n) == ByTurn(front, left, n) + [x]
  {
    AtTurnPush(front, x, left, n);
    if n > 0 {
      if Turn(left, x) == n {
        AddsLast(front, x, left, n);
      } else {
        ByTurnPush(front, x, left, n - 1);
        NoneAtTurn(front, left, n);
      }
    }
  }

  lemma {:induction false} InTurnIsByTurn<T>(s: seq<T>, left: seq<seq<T>>)
    requires InTurn(s, left)
    ensures ByTurn(s, left, |left|) == s
  {
    if s == [] {
      Nothing<T>(left, |left|);
    } else {
      var front, last := s[..|s| - 1], s[|s| - 1];
      assert s == front + [last];
      InTurnFront(front, last, left);
      InTurnIsByTurn(front, left);
      ByTurnPush(front, last, left, |left|);
    }
  }

  lemma InTurnFront<T>(front: seq<T>, last: T, left: seq<seq<T>>)
    requires InTurn(front + [last], left)
    ensures InTurn(front, left) && forall i :: 0 <= i < |front| ==> Turn(left, front[i]) <= Turn(left, last)
  {
    var s := front + [last];
    assert forall i :: 0 <= i < |front| ==> s[i] == front[i];
    assert s[|front|] == last;
  }

  lemma {:induction false} Nothing<T>(left: seq<seq<T>>, n: nat)
    ensures ByTurn<T>([], left, n) == []
  {
    if n > 0 {
      Nothing(left, n - 1);
    }
  }

  // Survivors followed by those who left are the list they came from exactly when it is in turn.
  lemma ArrangedExactIff<T>(live: seq<T>, gone: seq<T>, left: seq<seq<T>>, s: seq<T>)
    requires Arranged(live, gone, left, s)
    ensures live + gone == s <==> InTurn(s, left)
  {
    ArrangedIsByTurn(s, left, |left|);
    ByTurnInTurn(s, left, |left|);
    if InTurn(s, left) {
      InTurnIsByTurn(s, left);
    }
  }

  // Nobody is lost or doubled on the way.
  lemma ArrangedPermutes<T>(live: seq<T>, gone: seq<T>, left: seq<seq<T>>, s: seq<T>)
    requires Arranged(live, gone, left, s)
    ensures multiset(live + gone) == multiset(s)
  {
    ArrangedIsByTurn(s, left, |left|);
    ByTurnPermutes(s, left);
  }

  lemma {:induction false} ByTurnPermutes<T>(s: seq<T>, left: seq<seq<T>>)
    ensures multiset(ByTurn(s, left, |left|)) == multiset(s)
  {
    if s == [] {
      Nothing<T>(left, |left|);
    } else {
      var front, last := s[..|s| - 1], s[|s| - 1];
      ByTurnPermutes(front, left);
      ByTurnAdds(front, last, left, |left|);
      assert s == front + [last];
    }
  }

  lemma {:induction false} ByTurnAdds<T>(front: seq<T>, x: T, left: seq<seq<T>>, n: nat)
    requires Turn(left, x) <= n
    ensures multiset(ByTurn(front + [x], left, n)) == multiset(ByTurn(front, left, n)) + multiset{x}
  {
    if Turn(left, x) == n {
      AddsLast(front, x, left, n);
      PushCounts(ByTurn(front, left, n), x);
    } else {
      ByTurnAdds(front, x, left, n - 1);
      AddsEarlier(front, x, left, n);
    }
  }

  lemma PushCounts<T>(s: seq<T>, x: T)
    ensures multiset(s + [x]) == multiset(s) + multiset{x}
  {
  }

  lemma AddsEarlier<T>(front: seq<T>, x: T, left: seq<seq<T>>, n: nat)
    requires Turn(left, x) < n
    requires multiset(ByTurn(front + [x], left, n - 1)) == multiset(ByTurn(front, left, n - 1)) + multiset{x}
    ensures multiset(ByTurn(front + [x], left, n)) == multiset(ByTurn(front, left, n)) + multiset{x}
  {
    AtTurnPush(front, x, left, n);
    AddedInFront(ByTurn(front, left, n - 1), ByTurn(front + [x], left, n - 1), AtTurn(front, left, n), x);
  }

  lemma AddsLast<T>(front: seq<T>, x: T, left: seq<seq<T>>, n: nat)
    requires Turn(left, x) == n
    ensures ByTurn(front + [x], left, n) == ByTurn(front, left, n) + [x]
  {
    AtTurnPush(front, x, left, n);
    if n > 0 {
      NotYet(front, x, left, n - 1);
      ConcatAssociates(ByTurn(front, left, n - 1), AtTurn(front, left, n), [x]);
    }
  }

  lemma AddedInFront<T>(a: seq<T>, a': seq<T>, b: seq<T>, x: T)
    requires multiset(a') == multiset(a) + multiset{x}
    ensures multiset(a' + b) == multiset(a + b) + multiset{x} && b + [] == b
  {
  }

  // ------------------------------------------------------------------ one place

  lemma {:induction false} FewerLive<T>(s: seq<T>, left: seq<seq<T>>)
    ensures |AtTurn(s, left, 0)| <= |s|
    ensures |AtTurn(s, left, 0)| == |s| ==> AtTurn(s, left, 0) == s && forall i :: 0 <= i < |s| ==> Turn(left, s[i]) == 0
  {
    if s != [] {
      FewerLive(s[..|s| - 1], left);
      assert s == s[..|s| - 1] + [s[|s| - 1]];
    }
  }

  // Whoever is in front stays in front.
  lemma FrontStays<T>(s: seq<T>, left: seq<seq<T>>, i: nat)
    requires i < |s| && forall j :: 0 <= j <= i ==> Turn(left, s[j]) == 0
    ensures i < |AtTurn(s, left, 0)|
  {
    var front, back := s[..i + 1], s[i + 1..];
    assert s == front + back;
    AllAtTurn(front, left, 0, 0);
    AtTurnAppend(front, back, left, 0);
  }

  // A survivor is still at its old place exactly when everybody up to that place survives.
  lemma PlaceIsKeptIff<T>(s: seq<T>, left: seq<seq<T>>, i: nat)
    requires Distinct(s) && i < |AtTurn(s, left, 0)|
    ensures i < |s|
    ensures AtTurn(s, left, 0)[i] == s[i] <==> forall j :: 0 <= j <= i ==> Turn(left, s[j]) == 0
  {
    FewerLive(s, left);
    var front, back := s[..i + 1], s[i + 1..];
    assert s == front + back;
    AtTurnAppend(front, back, left, 0);
    FewerLive(front, left);
    if |AtTurn(front, left, 0)| < |front| {
      var x := AtTurn(back, left, 0)[i - |AtTurn(front, left, 0)|];
      AtTurnMembers(back, left, 0, x);
      var k :| 0 <= k < |back| && back[k] == x;
      assert s[i + 1 + k] == x;
      if forall j :: 0 <= j <= i ==> Turn(left, s[j]) == 0 {
        AllAtTurn(front, left, 0, 0);
      }
    } else {
      forall j | 0 <= j <= i
        ensures Turn(left, s[j]) == 0
      {
        assert front[j] == s[j];
      }
    }
  }
}
