/** The cluster timeline: entries sorted by timestamp, with a checkpoint of the projection every
    5000 entries so that a snapshot never replays the whole history. The projection itself is a
    parameter: any deterministic step from a snapshot and an entry to the next snapshot. */
module Timeline {
  import opened Sequences
  import opened StableSort

  const CHECKPOINT_INTERVAL := 5000

  // ------------------------------------------------------------------ the simple specification

  // Replaying entries from the empty snapshot.
  function Replay<Ev, Co, S>(apply: (S, Entry<Ev, Co>) -> S, empty: S, es: seq<Entry<Ev, Co>>): (r: S)
  {
    if es == [] then empty else apply(Replay(apply, empty, es[..|es| - 1]), es[|es| - 1])
  }

  function Id<Ev, Co>(e: Entry<Ev, Co>): (r: string)
  {
    if e.NodeEntry? then e.node else "coordinator"
  }

  // Entities in order of first appearance.
  function FirstSeen<Ev, Co>(es: seq<Entry<Ev, Co>>): (r: seq<string>)
  {
    if es == [] then []
    else
      var front := FirstSeen(es[..|es| - 1]);
      if Id(es[|es| - 1]) in front then front else front + [Id(es[|es| - 1])]
  }

  datatype Range = Range(first: int, last: int)

  function Widen(r: Range, t: int): (w: Range)
  {
    Range(if t < r.first then t else r.first, if t > r.last then t else r.last)
  }

  // First and last timestamp of every node.
  function Ranges<Ev, Co>(es: seq<Entry<Ev, Co>>): (r: map<string, Range>)
  {
    if es == [] then map[]
    else
      var front, e := Ranges(es[..|es| - 1]), es[|es| - 1];
      if e.CoordinatorEntry? then front
      else if e.node in front then front[e.node := Widen(front[e.node], e.time)]
      else front[e.node := Range(e.time, e.time)]
  }

  lemma {:induction false} RangesAreTight<Ev, Co>(es: seq<Entry<Ev, Co>>, id: string)
    ensures id in Ranges(es) <==> exists i :: 0 <= i < |es| && es[i].NodeEntry? && es[i].node == id
    ensures forall i :: 0 <= i < |es| && es[i].NodeEntry? && es[i].node == id ==>
      id in Ranges(es) && Ranges(es)[id].first <= es[i].time <= Ranges(es)[id].last
    ensures id in Ranges(es) ==>
      && (exists i :: 0 <= i < |es| && es[i].NodeEntry? && es[i].node == id && es[i].time == Ranges(es)[id].first)
      && (exists i :: 0 <= i < |es| && es[i].NodeEntry? && es[i].node == id && es[i].time == Ranges(es)[id].last)
  {
    if es != [] {
      var front := es[..|es| - 1];
      RangesAreTight(front, id);
      assert forall i :: 0 <= i < |front| ==> front[i] == es[i];
    }
  }

  lemma {:induction false} FirstSeenListsAll<Ev, Co>(es: seq<Entry<Ev, Co>>)
    ensures forall i, j :: 0 <= i < j < |FirstSeen(es)| ==> FirstSeen(es)[i] != FirstSeen(es)[j]
    ensures forall i :: 0 <= i < |es| ==>
      Id(es[i]) in FirstSeen(es) && (if es[i].NodeEntry? then es[i].node else "coordinator") in FirstSeen(es)
    ensures forall id :: id in FirstSeen(es) ==> exists i :: 0 <= i < |es| && Id(es[i]) == id
  {
    if es != [] {
      var front := es[..|es| - 1];
      FirstSeenListsAll(front);
      assert forall i :: 0 <= i < |front| ==> front[i] == es[i];
    }
  }

  // Where an entity first appears.
  ghost predicate FirstAt<Ev, Co>(es: seq<Entry<Ev, Co>>, id: string, i: nat)
  {
    i < |es| && Id(es[i]) == id && forall j :: 0 <= j < i ==> Id(es[j]) != id
  }

  // The entities are listed in the order in which they first appear.
  lemma {:induction false} FirstSeenInOrder<Ev, Co>(es: seq<Entry<Ev, Co>>, a: nat, b: nat, i: nat, j: nat)
    requires a < b < |FirstSeen(es)| && FirstAt(es, FirstSeen(es)[a], i) && FirstAt(es, FirstSeen(es)[b], j)
    ensures i < j
  {
    var front := es[..|es| - 1];
    var ids := FirstSeen(front);
    assert ids <= FirstSeen(es) && a < |ids|;
    FirstInFront(es, ids[a], i);
    if b < |ids| {
      FirstInFront(es, ids[b], j);
      FirstSeenInOrder(front, a, b, i, j);
    } else {
      NewIsLast(es, j);
    }
  }

  // An entity that is listed for the first time appears with the last entry.
  lemma NewIsLast<Ev, Co>(es: seq<Entry<Ev, Co>>, j: nat)
    requires es != [] && Id(es[|es| - 1]) !in FirstSeen(es[..|es| - 1]) && FirstAt(es, Id(es[|es| - 1]), j)
    ensures j == |es| - 1
  {
    if j < |es| - 1 {
      SeenInFront(es, j);
    }
  }

  lemma SeenInFront<Ev, Co>(es: seq<Entry<Ev, Co>>, j: nat)
    requires j < |es| - 1
    ensures Id(es[j]) in FirstSeen(es[..|es| - 1])
  {
    FirstSeenListsAll(es[..|es| - 1]);
    assert es[..|es| - 1][j] == es[j];
  }

  lemma FirstInFront<Ev, Co>(es: seq<Entry<Ev, Co>>, id: string, i: nat)
    requires es != [] && id in FirstSeen(es[..|es| - 1]) && FirstAt(es, id, i)
    ensures FirstAt(es[..|es| - 1], id, i)
  {
    var front := es[..|es| - 1];
    FirstSeenListsAll(front);
    var k :| 0 <= k < |front| && Id(front[k]) == id;
    assert Id(es[k]) == id;
  }

  // ------------------------------------------------------------------ what a refresh does to the entries

  function Newest<Ev, Co>(es: seq<Entry<Ev, Co>>): (t: int)
  {
    if es == [] then 0 else es[|es| - 1].time
  }

  // Appended when nothing new is older than what is there, merged otherwise.
  function Refreshed<Ev, Co>(es: seq<Entry<Ev, Co>>, more: seq<Entry<Ev, Co>>): (r: seq<Entry<Ev, Co>>)
  {
    if more == [] then es
    else if Sort(more)[0].time < Newest(es) then Sort(es + Sort(more))
    else es + Sort(more)
  }

  // A refresh with these entries takes the merge path.
  predicate Merges<Ev, Co>(es: seq<Entry<Ev, Co>>, more: seq<Entry<Ev, Co>>)
  {
    more != [] && Sort(more)[0].time < Newest(es)
  }

  // Entries that are not older than the newest one are added at the end, and what is there is not touched, whatever
  // its order.
  lemma LaterEntriesAppend<Ev, Co>(es: seq<Entry<Ev, Co>>, more: seq<Entry<Ev, Co>>)
    requires forall i :: 0 <= i < |more| ==> more[i].time >= Newest(es)
    ensures Refreshed(es, more) == es + Sort(more)
  {
    if more == [] {
      assert es + Sort(more) == es;
    } else {
      SortKeepsEntries(more);
      assert Sort(more)[0] in multiset(more);
    }
  }

  // Either way the result is the stable sort of everything that has arrived.
  lemma RefreshSortsAll<Ev, Co>(arrived: seq<Entry<Ev, Co>>, more: seq<Entry<Ev, Co>>)
    ensures Refreshed(Sort(arrived), more) == Sort(arrived + more)
  {
    if more == [] {
      assert arrived + more == arrived;
    } else if Sort(more)[0].time < Newest(Sort(arrived)) {
      SortInBatches(arrived, more);
    } else {
      SortLaterBatch(arrived, more);
    }
  }

  lemma InstantsCompose<Ev, Co>(a: seq<Entry<Ev, Co>>, b: seq<Entry<Ev, Co>>, c: seq<Entry<Ev, Co>>)
    requires SameInstants(a, b) && SameInstants(b, c)
    ensures SameInstants(a, c)
  {
    forall t
      ensures AtTime(a, t) == AtTime(c, t)
    {
      assert AtTime(a, t) == AtTime(b, t) && AtTime(b, t) == AtTime(c, t);
    }
  }

  lemma MoreInstants<Ev, Co>(es: seq<Entry<Ev, Co>>, arrived: seq<Entry<Ev, Co>>, more: seq<Entry<Ev, Co>>)
    requires SameInstants(es, arrived)
    ensures SameInstants(es + Sort(more), arrived + more)
  {
    SortIsStable(more);
    AppendInstants(es, Sort(more), arrived, more);
  }

  // A merge sorts whatever is there: it gives the stable sort of all arrivals from any list that has kept the
  // entries of every instant in their order.
  lemma MergeRestoresOrder<Ev, Co>(es: seq<Entry<Ev, Co>>, arrived: seq<Entry<Ev, Co>>, more: seq<Entry<Ev, Co>>)
    requires SameInstants(es, arrived)
    ensures Sort(es + Sort(more)) == Sort(arrived + more)
  {
    MoreInstants(es, arrived, more);
    var merged, all := es + Sort(more), arrived + more;
    SortIsStable(merged);
    InstantsCompose(Sort(merged), merged, all);
    SameAsSorted(Sort(merged), all);
  }

  // Neither path of a refresh reorders the entries of one instant, and a merge puts all in order.
  lemma RefreshKeepsInstants<Ev, Co>(es: seq<Entry<Ev, Co>>, arrived: seq<Entry<Ev, Co>>, more: seq<Entry<Ev, Co>>)
    requires SameInstants(es, arrived)
    ensures SameInstants(Refreshed(es, more), arrived + more)
    ensures Merges(es, more) ==> Refreshed(es, more) == Sort(arrived + more)
  {
    if more == [] {
      assert arrived + more == arrived;
    } else if Merges(es, more) {
      MergeRestoresOrder(es, arrived, more);
      SortIsStable(arrived + more);
    } else {
      MoreInstants(es, arrived, more);
    }
  }

  lemma RefreshFacts<Ev, Co>(es: seq<Entry<Ev, Co>>, arrived: seq<Entry<Ev, Co>>, more: seq<Entry<Ev, Co>>)
    ensures es == Sort(arrived) ==> Refreshed(es, more) == Sort(arrived + more)
    ensures SameInstants(es, arrived) ==>
      SameInstants(Refreshed(es, more), arrived + more) &&
      (Merges(es, more) ==> Refreshed(es, more) == Sort(arrived + more))
  {
    RefreshSortsAll(arrived, more);
    if SameInstants(es, arrived) {
      RefreshKeepsInstants(es, arrived, more);
    }
  }

  lemma PushKeepsInstants<Ev, Co>(es: seq<Entry<Ev, Co>>, arrived: seq<Entry<Ev, Co>>, e: Entry<Ev, Co>)
    requires SameInstants(es, arrived)
    ensures SameInstants(es + [e], arrived + [e])
  {
    AppendInstants(es, [e], arrived, [e]);
  }

  lemma PushFacts<Ev, Co>(es: seq<Entry<Ev, Co>>, arrived: seq<Entry<Ev, Co>>, e: Entry<Ev, Co>)
    ensures SameInstants(es, arrived) ==> SameInstants(es + [e], arrived + [e])
    ensures es == Sort(arrived) ==>
      (es + [e] == Sort(arrived + [e]) <==> es == [] || Newest(es) <= e.time)
  {
    PushKeepsSortIff(arrived, e);
    if SameInstants(es, arrived) {
      PushKeepsInstants(es, arrived, e);
    }
  }

  lemma SortKeepsInstants<Ev, Co>(s: seq<Entry<Ev, Co>>)
    ensures SameInstants(Sort(s), s)
  {
    SortIsStable(s);
  }

  function Concat<T>(batches: seq<seq<T>>): (r: seq<T>)
  {
    if batches == [] then [] else Concat(batches[..|batches| - 1]) + batches[|batches| - 1]
  }

  function RefreshedAll<Ev, Co>(es: seq<Entry<Ev, Co>>, batches: seq<seq<Entry<Ev, Co>>>): (r: seq<Entry<Ev, Co>>)
  {
    if batches == [] then es else Refreshed(RefreshedAll(es, batches[..|batches| - 1]), batches[|batches| - 1])
  }

  // A load followed by any number of refreshes, whatever path each takes.
  lemma {:induction false} HistorySortsAll<Ev, Co>(loaded: seq<Entry<Ev, Co>>, batches: seq<seq<Entry<Ev, Co>>>)
    ensures RefreshedAll(Sort(loaded), batches) == Sort(loaded + Concat(batches))
  {
    if batches == [] {
      assert loaded + Concat(batches) == loaded;
    } else {
      var last := |batches| - 1;
      var before := loaded + Concat(batches[..last]);
      HistorySortsAll(loaded, batches[..last]);
      RefreshSortsAll(before, batches[last]);
      ConcatAssociates(loaded, Concat(batches[..last]), batches[last]);
    }
  }

  // A pushed entry keeps the order exactly when it is not older than the newest one.
  lemma PushKeepsSortIff<Ev, Co>(arrived: seq<Entry<Ev, Co>>, e: Entry<Ev, Co>)
    ensures Sort(arrived) + [e] == Sort(arrived + [e]) <==> arrived == [] || Newest(Sort(arrived)) <= e.time
  {
    var s := Sort(arrived);
    assert (arrived + [e])[..|arrived|] == arrived;
    if arrived != [] && s[|s| - 1].time > e.time {
      assert Insert(s, e)[|s|] == s[|s| - 1] && (s + [e])[|s|] == e;
    }
  }

  // An entry from the past, pushed behind a newer one.
  lemma PushFromThePastExample() returns (arrived: seq<Entry<int, int>>, e: Entry<int, int>)
    ensures Sort(arrived) + [e] != Sort(arrived + [e])
  {
    arrived, e := [CoordinatorEntry(5, 0)], CoordinatorEntry(3, 0);
    assert arrived[..0] == [];
    PushKeepsSortIff(arrived, e);
  }

  // ------------------------------------------------------------------ checkpoints

  // Every multiple of the interval below n has its checkpoint, and no other index has one.
  ghost predicate CheckpointsUpTo<Ev, Co, S>(
    apply: (S, Entry<Ev, Co>) -> S, empty: S, es: seq<Entry<Ev, Co>>, cps: seq<(nat, S)>, n: nat)
    requires n <= |es|
  {
    && |cps| == (n + CHECKPOINT_INTERVAL - 1) / CHECKPOINT_INTERVAL
    && forall k :: 0 <= k < |cps| ==>
         cps[k].0 == k * CHECKPOINT_INTERVAL && cps[k].0 < n && cps[k].1 == Replay(apply, empty, es[..cps[k].0])
  }

  lemma CheckpointsFrame<Ev, Co, S>(
    apply: (S, Entry<Ev, Co>) -> S, empty: S, es: seq<Entry<Ev, Co>>, es': seq<Entry<Ev, Co>>,
    cps: seq<(nat, S)>, n: nat)
    requires n <= |es| && n <= |es'| && es[..n] == es'[..n] && CheckpointsUpTo(apply, empty, es, cps, n)
    ensures CheckpointsUpTo(apply, empty, es', cps, n)
  {
    forall k | 0 <= k < |cps|
      ensures es'[..cps[k].0] == es[..cps[k].0]
    {
      assert es[..n][..cps[k].0] == es[..cps[k].0] && es'[..n][..cps[k].0] == es'[..cps[k].0];
    }
  }

  // The projection at an index is kept when the index is a multiple of the interval.
  function Marked<S>(cps: seq<(nat, S)>, n: nat, base: S): (r: seq<(nat, S)>)
  {
    if n % CHECKPOINT_INTERVAL == 0 then cps + [(n, base)] else cps
  }

  lemma CheckpointsStep<Ev, Co, S>(
    apply: (S, Entry<Ev, Co>) -> S, empty: S, es: seq<Entry<Ev, Co>>, cps: seq<(nat, S)>, n: nat, base: S)
    requires n < |es| && CheckpointsUpTo(apply, empty, es, cps, n) && base == Replay(apply, empty, es[..n])
    ensures CheckpointsUpTo(apply, empty, es, Marked(cps, n, base), n + 1)
  {
  }

  lemma ReplayStep<Ev, Co, S>(apply: (S, Entry<Ev, Co>) -> S, empty: S, es: seq<Entry<Ev, Co>>, start: nat, n: nat)
    requires start <= n < |es|
    ensures Replay(apply, empty, es[start..n + 1]) == apply(Replay(apply, empty, es[start..n]), es[n])
  {
    assert es[start..n + 1][..n - start] == es[start..n];
  }

  // The last checkpoint up to an entry is less than 5000 entries before it.
  lemma NearestIsNear<Ev, Co, S>(
    apply: (S, Entry<Ev, Co>) -> S, empty: S, es: seq<Entry<Ev, Co>>, cps: seq<(nat, S)>, k: int, at: nat)
    requires CheckpointsUpTo(apply, empty, es, cps, |es|) && at < |es| && -1 <= k < |cps|
    requires k >= 0 ==> cps[k].0 <= at
    requires k + 1 < |cps| ==> at < cps[k + 1].0
    ensures k >= 0 && at < cps[k].0 + 5000
  {
    assert |cps| >= 1 && cps[0].0 == 0;
  }

  // Dropping the checkpoints from index m on.
  lemma CheckpointsCut<Ev, Co, S>(
    apply: (S, Entry<Ev, Co>) -> S, empty: S, es: seq<Entry<Ev, Co>>, cps: seq<(nat, S)>, k: nat)
    requires CheckpointsUpTo(apply, empty, es, cps, |es|) && k < |cps|
    ensures CheckpointsUpTo(apply, empty, es, cps[..k], k * CHECKPOINT_INTERVAL)
  {
    assert cps[k].0 == k * CHECKPOINT_INTERVAL;
  }

  // ------------------------------------------------------------------ rolling back

  // The last checkpoint before a merge point, from where a merge replays.
  function ReplayStart(mergePoint: nat): (start: nat)
    ensures start <= mergePoint
  {
    if mergePoint == 0 then 0 else (mergePoint - 1) / CHECKPOINT_INTERVAL * CHECKPOINT_INTERVAL
  }

  // Where times cross t, which is one place only when entries before t all come first.
  ghost predicate Crosses<Ev, Co>(es: seq<Entry<Ev, Co>>, t: int, m: nat)
  {
    m <= |es| && (m > 0 ==> es[m - 1].time < t) && (m < |es| ==> t <= es[m].time)
  }

  // What a merge leaves in the tail: the kept base, then the merged entries behind it.
  function ReplayedFrom<Ev, Co, S>(
    apply: (S, Entry<Ev, Co>) -> S, empty: S, before: seq<Entry<Ev, Co>>, after: seq<Entry<Ev, Co>>, start: nat): (r: S)
    requires start <= |before| && start <= |after|
  {
    Replay(apply, Replay(apply, empty, before[..start]), after[start..])
  }

  // In a sorted timeline everything a merge keeps is settled.
  lemma OrderedIsSettled<Ev, Co>(arrived: seq<Entry<Ev, Co>>, more: seq<Entry<Ev, Co>>, mergePoint: nat)
    requires more != [] && Crosses(Sort(arrived), Sort(more)[0].time, mergePoint)
    ensures Settled(Sort(arrived), Sort(more), ReplayStart(mergePoint))
  {
    SortIsSorted(arrived);
    SortIsSorted(more);
    SortedIsSettled(Sort(arrived), Sort(more), mergePoint, ReplayStart(mergePoint));
  }

  // A projection that forgets nothing.
  function Record<Ev, Co>(s: seq<Entry<Ev, Co>>, e: Entry<Ev, Co>): (r: seq<Entry<Ev, Co>>)
  {
    s + [e]
  }

  lemma {:induction false} RecordReplays<Ev, Co>(base: seq<Entry<Ev, Co>>, es: seq<Entry<Ev, Co>>)
    ensures Replay(Record, base, es) == base + es
  {
    if es != [] {
      RecordReplays(base, es[..|es| - 1]);
    }
  }

  lemma KeptFront<T>(a: seq<T>, b: seq<T>, n: nat)
    requires n <= |a| && n <= |b|
    ensures a[..n] + b[n..] == b <==> b[..n] == a[..n]
  {
    assert (a[..n] + b[n..])[..n] == a[..n] && b[..n] + b[n..] == b;
  }

  lemma RecordedTail<Ev, Co>(es: seq<Entry<Ev, Co>>, merged: seq<Entry<Ev, Co>>, start: nat)
    requires start <= |es| && start <= |merged|
    ensures ReplayedFrom(Record, [], es, merged, start) == es[..start] + merged[start..]
  {
    RecordReplays([], es[..start]);
    RecordReplays(es[..start], merged[start..]);
    assert [] + es[..start] == es[..start];
  }

  // Replaying from the kept base is right for such a projection only when the kept entries were settled.
  lemma RecordedTailIff<Ev, Co>(es: seq<Entry<Ev, Co>>, more: seq<Entry<Ev, Co>>, start: nat)
    requires start <= |es|
    ensures
      var merged := Sort(es + more);
      ReplayedFrom(Record, [], es, merged, start) == Replay(Record, [], merged) <==> Settled(es, more, start)
  {
    var merged := Sort(es + more);
    RecordReplays([], merged);
    assert [] + merged == merged;
    RecordedTail(es, merged, start);
    KeptFront(es, merged, start);
    MergeKeepsPrefixIff(es, more, start);
  }

  // 6000 entries, one of which came late.
  function OneLate(): (es: seq<Entry<int, int>>)
    ensures |es| == 6000 && forall i :: 0 <= i < 6000 ==> es[i] == CoordinatorEntry(if i == 5500 then 0 else i + 1, 0)
  {
    seq(6000, i => CoordinatorEntry(if i == 5500 then 0 else i + 1, 0))
  }

  lemma LateIsUnsettled(more: seq<Entry<int, int>>)
    ensures !Settled(OneLate(), more, 5000)
  {
    var es := OneLate();
    assert (es[5000..] + more)[500] == es[5500];
  }

  // The merge replays from entry 5000, behind which the late entry was.
  lemma LateEntryExample() returns (es: seq<Entry<int, int>>, more: seq<Entry<int, int>>, mergePoint: nat)
    ensures Merges(es, more) && Crosses(es, Sort(more)[0].time, mergePoint)
    ensures
      var merged, start := Refreshed(es, more), ReplayStart(mergePoint);
      ReplayedFrom(Record, [], es, merged, start) != Replay(Record, [], merged)
  {
    es, more, mergePoint := OneLate(), [CoordinatorEntry(5800, 0)], 5799;
    SortOfSorted(more);
    LateIsUnsettled(more);
    RecordedTailIff(es, more, 5000);
  }

  class ClusterTimeline<Ev, Co, S> {
    const apply: (S, Entry<Ev, Co>) -> S
    const empty: S
    var entries: seq<Entry<Ev, Co>>
    var checkpoints: seq<(nat, S)>
    var tail: S
    var entityIds: seq<string>
    var seen: set<string>
    var ranges: map<string, Range>
    // Everything that has arrived, in order of arrival.
    ghost var arrived: seq<Entry<Ev, Co>>

    ghost predicate Indexed()
      reads `entries, `checkpoints, `tail
    {
      CheckpointsUpTo(apply, empty, entries, checkpoints, |entries|) && tail == Replay(apply, empty, entries)
    }

    ghost predicate Cached()
      reads `entries, `entityIds, `seen, `ranges
    {
      entityIds == FirstSeen(entries) && seen == (set id | id in entityIds) && ranges == Ranges(entries)
    }

    ghost predicate Valid()
      reads `entries, `checkpoints, `tail, `entityIds, `seen, `ranges
    {
      Indexed() && Cached()
    }

    ghost predicate Ordered()
      reads `entries, `arrived
    {
      entries == Sort(arrived)
    }

    // Everything that has arrived is there, the entries of one instant in the order they arrived.
    ghost predicate Complete()
      reads `entries, `arrived
    {
      SameInstants(entries, arrived)
    }

    constructor (apply: (S, Entry<Ev, Co>) -> S, empty: S)
      ensures Valid() && Ordered() && Complete() && entries == [] && this.apply == apply && this.empty == empty
    {
      this.apply, this.empty := apply, empty;
      entries, checkpoints, tail := [], [], empty;
      entityIds, seen, ranges := [], {}, map[];
      arrived := [];
    }

    // Replaces the timeline by a freshly decoded directory.
    method Load(raw: seq<Entry<Ev, Co>>)
      modifies this
      ensures Valid() && Ordered() && Complete() && arrived == raw
    {
      entries := Sort(raw);
      Reindex();
      arrived := raw;
      SortKeepsInstants(raw);
    }

    // Brings everything derived from the entries up to date.
    method Reindex()
      modifies `checkpoints, `tail, `entityIds, `seen, `ranges
      ensures Valid()
    {
      checkpoints, tail := [], empty;
      ExtendCheckpoints(0);
      RebuildEntityIds();
      ranges := map[];
      ExtendTimestampRanges(0);
    }

    // Applies entries[start..] to the tail projection, leaving checkpoints on the way.
    method ExtendCheckpoints(start: nat)
      requires start <= |entries|
      modifies this`checkpoints, this`tail
      ensures tail == Replay(apply, old(tail), entries[start..])
      ensures
        old(tail == Replay(apply, empty, entries[..start]) && CheckpointsUpTo(apply, empty, entries, checkpoints, start))
        ==> Indexed()
    {
      ghost var right :=
        tail == Replay(apply, empty, entries[..start]) && CheckpointsUpTo(apply, empty, entries, checkpoints, start);
      for idx := start to |entries|
        invariant tail == Replay(apply, old(tail), entries[start..idx])
        invariant right ==> tail == Replay(apply, empty, entries[0..idx])
        invariant right ==> CheckpointsUpTo(apply, empty, entries, checkpoints, idx)
      {
        if right {
          CheckpointsStep(apply, empty, entries, checkpoints, idx, tail);
        }
        ReplayStep(apply, old(tail), entries, start, idx);
        ReplayStep(apply, empty, entries, 0, idx);
        checkpoints := Marked(checkpoints, idx, tail);
        tail := apply(tail, entries[idx]);
      }
      assert entries[0..|entries|] == entries && entries[start..|entries|] == entries[start..];
    }

    method RebuildEntityIds()
      modifies this`entityIds, this`seen
      ensures entityIds == FirstSeen(entries) && seen == set id | id in entityIds
    {
      seen, entityIds := {}, [];
      ExtendEntityIds(0);
    }

    method ExtendEntityIds(start: nat)
      requires start <= |entries|
      requires entityIds == FirstSeen(entries[..start]) && seen == set id | id in entityIds
      modifies this`entityIds, this`seen
      ensures entityIds == FirstSeen(entries) && seen == set id | id in entityIds
    {
      for idx := start to |entries|
        invariant entityIds == FirstSeen(entries[..idx]) && seen == set id | id in entityIds
      {
        assert entries[..idx + 1][..idx] == entries[..idx];
        var id := Id(entries[idx]);
        if id !in seen {
          seen, entityIds := seen + {id}, entityIds + [id];
        }
      }
      assert entries[..|entries|] == entries;
    }

    method ExtendTimestampRanges(start: nat)
      requires start <= |entries| && ranges == Ranges(entries[..start])
      modifies this`ranges
      ensures ranges == Ranges(entries)
    {
      for idx := start to |entries|
        invariant ranges == Ranges(entries[..idx])
      {
        assert entries[..idx + 1][..idx] == entries[..idx];
        var e := entries[idx];
        if e.NodeEntry? {
          if e.node in ranges {
            ranges := ranges[e.node := Widen(ranges[e.node], e.time)];
          } else {
            ranges := ranges[e.node := Range(e.time, e.time)];
          }
        }
      }
      assert entries[..|entries|] == entries;
    }

    // New entries decoded since the last look. A merge replays from the last checkpoint before the merge point, so it
    // relies on the entries up to there staying where they are; on a sorted timeline they always do.
    method Refresh(more: seq<Entry<Ev, Co>>) returns (found: bool, ghost mergePoint: nat)
      requires Valid()
      modifies this
      ensures entries == Refreshed(old(entries), more) && arrived == old(arrived) + more && found == (more != [])
      ensures Cached()
      ensures !Merges(old(entries), more) ==> Valid()
      ensures Merges(old(entries), more) ==> Crosses(old(entries), Sort(more)[0].time, mergePoint)
      ensures Merges(old(entries), more) ==>
        tail == ReplayedFrom(apply, empty, old(entries), entries, ReplayStart(mergePoint))
      ensures Merges(old(entries), more) && Settled(old(entries), Sort(more), ReplayStart(mergePoint)) ==> Valid()
      ensures old(Ordered()) ==> Valid() && Ordered()
      ensures old(Complete()) ==> Complete() && (Merges(old(entries), more) ==> Ordered())
    {
      ghost var was, before := entries, arrived;
      RefreshFacts(was, before, more);
      arrived, mergePoint := arrived + more, 0;
      if more == [] {
        return false, mergePoint;
      }
      var newer := Sort(more);
      if newer[0].time < Newest(entries) {
        mergePoint := MergeFrom(newer);
        if was == Sort(before) {
          OrderedIsSettled(before, more, mergePoint);
        }
      } else {
        AppendFrom(newer);
      }
      found := true;
    }

    // The fast path: everything new is newer.
    method AppendFrom(newer: seq<Entry<Ev, Co>>)
      requires Valid()
      modifies this`entries, this`checkpoints, this`tail, this`entityIds, this`seen, this`ranges
      ensures Valid() && entries == old(entries) + newer
    {
      var start := |entries|;
      Append(newer);
      ExtendEntityIds(start);
      ExtendTimestampRanges(start);
    }

    // Adds entries at the end and brings the checkpoints and the tail up to date.
    method Append(more: seq<Entry<Ev, Co>>)
      requires Indexed()
      modifies this`entries, this`checkpoints, this`tail
      ensures Indexed() && entries == old(entries) + more && entries[..old(|entries|)] == old(entries)
    {
      var start := |entries|;
      ghost var before := entries;
      entries := entries + more;
      assert entries[..start] == before;
      CheckpointsFrame(apply, empty, before, entries, checkpoints, start);
      ExtendCheckpoints(start);
    }

    // The slow path: merges, then rebuilds what is derived from all entries.
    method MergeFrom(newer: seq<Entry<Ev, Co>>) returns (ghost mergePoint: nat)
      requires Indexed() && newer != []
      modifies this`entries, this`checkpoints, this`tail, this`entityIds, this`seen, this`ranges
      ensures entries == Sort(old(entries) + newer) && Cached()
      ensures Crosses(old(entries), newer[0].time, mergePoint)
      ensures tail == ReplayedFrom(apply, empty, old(entries), entries, ReplayStart(mergePoint))
      ensures Settled(old(entries), newer, ReplayStart(mergePoint)) ==> Valid()
    {
      mergePoint := Merge(newer);
      RebuildEntityIds();
      ranges := map[];
      ExtendTimestampRanges(0);
    }

    // Rolls back to the last checkpoint before the first new entry, merges and replays from there.
    method Merge(newer: seq<Entry<Ev, Co>>) returns (ghost mergePoint: nat)
      requires Indexed() && newer != []
      modifies this`entries, this`checkpoints, this`tail
      ensures entries == Sort(old(entries) + newer)
      ensures Crosses(old(entries), newer[0].time, mergePoint)
      ensures tail == ReplayedFrom(apply, empty, old(entries), entries, ReplayStart(mergePoint))
      ensures Settled(old(entries), newer, ReplayStart(mergePoint)) ==> Indexed()
    {
      var m := PartitionPoint(newer[0].time);
      var start := Rollback(m);
      mergePoint := m;
      ghost var before := entries;
      entries := Sort(entries + newer);
      if Settled(before, newer, start) {
        SettledStays(before, newer, start);
        CheckpointsFrame(apply, empty, before, entries, checkpoints, start);
      }
      ExtendCheckpoints(start);
    }

    // A binary search for where times reach t: the number of entries before t, when those come first.
    method PartitionPoint(t: int) returns (m: nat)
      ensures Crosses(entries, t, m)
      ensures Sorted(entries) ==>
        forall i :: 0 <= i < |entries| ==> (i < m <==> entries[i].time < t)
    {
      var hi := |entries|;
      m := 0;
      while m < hi
        invariant m <= hi <= |entries|
        invariant m > 0 ==> entries[m - 1].time < t
        invariant hi < |entries| ==> t <= entries[hi].time
      {
        var mid := (m + hi) / 2;
        if entries[mid].time < t {
          m := mid + 1;
        } else {
          hi := mid;
        }
      }
    }

    // Drops the checkpoints at or after the merge point and pops the last one left as the new base.
    method Rollback(mergePoint: nat) returns (start: nat)
      requires Indexed() && mergePoint <= |entries|
      modifies this`checkpoints, this`tail
      ensures start == ReplayStart(mergePoint) && tail == Replay(apply, empty, entries[..start])
      ensures CheckpointsUpTo(apply, empty, entries, checkpoints, start)
    {
      var keep := 0;
      while keep < |checkpoints| && checkpoints[keep].0 < mergePoint
        invariant keep <= |checkpoints|
        invariant forall k :: 0 <= k < keep ==> checkpoints[k].0 < mergePoint
      {
        keep := keep + 1;
      }
      if keep == 0 {
        checkpoints, tail, start := [], empty, 0;
      } else {
        CheckpointsCut(apply, empty, entries, checkpoints, keep - 1);
        var base := checkpoints[keep - 1];
        checkpoints, start, tail := checkpoints[..keep - 1], base.0, base.1;
      }
    }

    // The entity of the entry just pushed.
    method NoteLast(id: string)
      requires entries != [] && id == Id(entries[|entries| - 1])
      requires entityIds == FirstSeen(entries[..|entries| - 1]) && seen == set x | x in entityIds
      modifies this`entityIds, this`seen
      ensures entityIds == FirstSeen(entries) && seen == set x | x in entityIds
    {
      if id !in seen {
        seen, entityIds := seen + {id}, entityIds + [id];
      }
    }

    method PushNodeEvent(time: int, node: string, event: Ev)
      requires Valid()
      modifies this
      ensures Valid() && arrived == old(arrived) + [NodeEntry(time, node, event)]
      ensures entries == old(entries) + [NodeEntry(time, node, event)]
      ensures old(Complete()) ==> Complete()
      ensures old(Ordered()) ==> (Ordered() <==> old(entries) == [] || old(Newest(entries)) <= time)
    {
      var e := NodeEntry(time, node, event);
      ghost var was, before := entries, arrived;
      Push(e, node);
      arrived := arrived + [e];
      PushFacts(was, before, e);
    }

    method PushCoordinator(time: int, state: Co)
      requires Valid()
      modifies this
      ensures Valid() && arrived == old(arrived) + [CoordinatorEntry(time, state)]
      ensures entries == old(entries) + [CoordinatorEntry(time, state)]
      ensures old(Complete()) ==> Complete()
      ensures old(Ordered()) ==> (Ordered() <==> old(entries) == [] || old(Newest(entries)) <= time)
    {
      var e := CoordinatorEntry(time, state);
      ghost var was, before := entries, arrived;
      Push(e, "coordinator");
      arrived := arrived + [e];
      PushFacts(was, before, e);
    }

    // Adds an entry at the end; a coordinator state has no range to widen.
    method Push(e: Entry<Ev, Co>, id: string)
      requires Valid() && id == Id(e)
      modifies `entries, `checkpoints, `tail, `entityIds, `seen, `ranges
      ensures Valid() && entries == old(entries) + [e]
    {
      var start := |entries|;
      Append([e]);
      assert entries[..|entries| - 1] == entries[..start];
      NoteLast(id);
      if e.NodeEntry? {
        ExtendTimestampRanges(start);
      }
    }

    // The snapshot after entry idx, clamped to the last one: the same as replaying from the start, at the cost of
    // replaying at most 5000 entries.
    method SnapshotAt(idx: nat) returns (r: S, ghost replayed: nat)
      requires Valid()
      ensures entries == [] ==> r == empty
      ensures entries != [] ==>
        r == Replay(apply, empty, entries[..(if idx < |entries| then idx else |entries| - 1) + 1])
      ensures replayed <= 5000
    {
      if entries == [] {
        return empty, 0;
      }
      var at := if idx < |entries| then idx else |entries| - 1;
      var k := |checkpoints| - 1;
      while k >= 0 && checkpoints[k].0 > at
        invariant -1 <= k < |checkpoints|
        invariant k + 1 < |checkpoints| ==> at < checkpoints[k + 1].0
      {
        k := k - 1;
      }
      var start := 0;
      r := empty;
      if k >= 0 {
        start, r := checkpoints[k].0, checkpoints[k].1;
      }
      replayed := at + 1 - start;
      NearestIsNear(apply, empty, entries, checkpoints, k, at);
      for i := start to at + 1
        invariant r == Replay(apply, empty, entries[..i])
      {
        assert entries[..i + 1][..i] == entries[..i];
        r := apply(r, entries[i]);
      }
    }
  }
}
