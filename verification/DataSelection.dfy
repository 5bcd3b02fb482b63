/** Which data a round covers and which trainer gets which part of it. */
module DataSelection {
  import opened Sequences
  import opened Wrappers
  import opened CommitteeDraw
  import opened CoordinatorSpec
  import opened CoordinatorInvariants
  import DeterministicShuffle

  // A closed interval of data indices.
  datatype BatchId = BatchId(start: nat, end: nat) {
    predicate Covers(d: nat) { start <= d <= end }
    function Size(): int { end - start + 1 }
  }

  /** Batches in key order, each with the node it is assigned to. */
  type Assignments = seq<(BatchId, NodeIdentity)>

  // ------------------------------------------------------------------ even shares

  // How many of `total` items the first k of n shares hold: the remainder goes to the front.
  function Cut(total: nat, n: nat, k: nat): (r: nat)
    requires n > 0
  {
    if k == 0 then 0 else Cut(total, n, k - 1) + total / n + if k - 1 < total % n then 1 else 0
  }

  lemma {:induction false} CutIs(total: nat, n: nat, k: nat)
    requires n > 0
    ensures Cut(total, n, k) == k * (total / n) + if k < total % n then k else total % n
  {
    if k > 0 {
      CutIs(total, n, k - 1);
      assert k * (total / n) == (k - 1) * (total / n) + total / n;
    }
  }

  // Share k of n, and the shares that are not empty.
  function Share(start: nat, total: nat, n: nat, k: nat): (b: BatchId)
    requires n > 0 && k < n && k < total
  {
    CutGrows(total, n, k);
    BatchId(start + Cut(total, n, k), start + Cut(total, n, k + 1) - 1)
  }

  function Shares(start: nat, total: nat, n: nat): (r: seq<BatchId>)
    requires n > 0
    ensures |r| == if n < total then n else total
    ensures forall k :: 0 <= k < |r| ==> r[k] == Share(start, total, n, k)
  {
    seq(if n < total then n else total, k requires 0 <= k < n && k < total => Share(start, total, n, k))
  }

  lemma DivFacts(total: nat, n: nat)
    requires n > 0
    ensures total == total / n * n + total % n && 0 <= total % n < n
    ensures total < n ==> total / n == 0 && total % n == total
    ensures total >= n ==> total / n >= 1
  {
  }

  // A share holds total / n items, one more in front, so all are non-empty up to the total.
  lemma CutGrows(total: nat, n: nat, k: nat)
    requires n > 0 && k < n
    ensures Cut(total, n, k + 1) - Cut(total, n, k) == total / n + (if k < total % n then 1 else 0)
    ensures k < total ==> Cut(total, n, k + 1) > Cut(total, n, k)
    ensures k >= total ==> Cut(total, n, k + 1) == Cut(total, n, k)
  {
    DivFacts(total, n);
  }

  lemma CutEnds(total: nat, n: nat)
    requires n > 0
    ensures Cut(total, n, 0) == 0 && Cut(total, n, n) == total
  {
    CutIs(total, n, n);
    DivFacts(total, n);
  }

  lemma {:induction false} CutMonotone(total: nat, n: nat, j: nat, k: nat)
    requires n > 0 && j <= k <= n
    ensures Cut(total, n, j) <= Cut(total, n, k)
    decreases k
  {
    if j < k {
      CutMonotone(total, n, j, k - 1);
      CutGrows(total, n, k - 1);
    }
  }

  // Beyond the total there is nothing left to share out.
  lemma {:induction false} CutExhausted(total: nat, n: nat, k: nat)
    requires n > 0 && total <= k <= n
    ensures Cut(total, n, k) == total
    decreases n - k
  {
    if k == n {
      CutEnds(total, n);
    } else {
      CutExhausted(total, n, k + 1);
      CutGrows(total, n, k);
    }
  }

  // The shares cover exactly [start, start + total), each index once, and any two differ in size
  // by at most one.
  lemma SharesTile(start: nat, total: nat, n: nat, d: nat)
    requires n > 0
    ensures start <= d < start + total <==> exists k :: 0 <= k < |Shares(start, total, n)| && Shares(start, total, n)[k].Covers(d)
    ensures forall j, k :: 0 <= j < k < |Shares(start, total, n)| ==>
      Shares(start, total, n)[j].end < Shares(start, total, n)[k].start
  {
    var shares := Shares(start, total, n);
    if start <= d < start + total {
      var k := FindShare(start, total, n, d);
      assert shares[k].Covers(d);
    }
    forall k | 0 <= k < |shares|
      ensures start <= shares[k].start && shares[k].end < start + total
    {
      CutEnds(total, n);
      CutMonotone(total, n, 0, k);
      CutMonotone(total, n, k + 1, n);
    }
    forall j, k | 0 <= j < k < |shares|
      ensures shares[j].end < shares[k].start
    {
      CutMonotone(total, n, j + 1, k);
    }
  }

  lemma FindShare(start: nat, total: nat, n: nat, d: nat) returns (k: nat)
    requires n > 0 && start <= d < start + total
    ensures k < n && k < total && Share(start, total, n, k).Covers(d)
  {
    CutEnds(total, n);
    k := 0;
    while start + Cut(total, n, k + 1) <= d
      invariant k < n && start + Cut(total, n, k) <= d
      decreases n - k
    {
      k := k + 1;
    }
    if k >= total {
      CutExhausted(total, n, k);
    }
  }

  lemma SharesAreEven(start: nat, total: nat, n: nat, j: nat, k: nat)
    requires n > 0 && j < n && k < n
    ensures -1 <= (Cut(total, n, j + 1) - Cut(total, n, j)) - (Cut(total, n, k + 1) - Cut(total, n, k)) <= 1
    ensures j <= k ==> Cut(total, n, j + 1) - Cut(total, n, j) >= Cut(total, n, k + 1) - Cut(total, n, k)
    ensures j < total ==> Share(start, total, n, j).Size() == Cut(total, n, j + 1) - Cut(total, n, j)
  {
    CutGrows(total, n, j);
    CutGrows(total, n, k);
  }

  // ------------------------------------------------------------------ batch ids of a round

  function ShareSize(total: nat, n: nat, i: nat): (size: nat)
    requires n > 0
  {
    total / n + if i < total % n then 1 else 0
  }

  // The shares cut before share i.
  function FirstShares(start: nat, total: nat, n: nat, i: nat): (r: seq<BatchId>)
    requires 0 < n && i <= n
  {
    Shares(start, total, n)[..if i < total then i else total]
  }

  lemma NextShare(start: nat, total: nat, n: nat, i: nat, current: nat)
    requires i < n && current == start + Cut(total, n, i)
    ensures var size := ShareSize(total, n, i);
      && start + Cut(total, n, i + 1) == current + size && (size > 0 <==> i < total)
      && (size > 0 ==> Share(start, total, n, i) == BatchId(current, current + size - 1))
      && FirstShares(start, total, n, i + 1) ==
           FirstShares(start, total, n, i) + if size > 0 then [BatchId(current, current + size - 1)] else []
  {
    CutGrows(total, n, i);
  }

  lemma SharedOut(start: nat, total: nat, n: nat, k: nat)
    requires 0 < n && k <= n
    requires k == n || (0 < k <= total && Cut(total, n, k) >= total)
    ensures FirstShares(start, total, n, k) == Shares(start, total, n)
  {
    if k < n {
      LastShare(total, n, k);
    }
  }

  // Without trainers the division by their number aborts.
  method BatchIdsForRound(c: Config, round: Round, numTrainers: nat) returns (o: Outcome<seq<BatchId>>)
    ensures o ==
      if numTrainers == 0 then Panic
      else Done(Shares(round.dataIndex, BatchAt(c, round.dataIndex), numTrainers))
  {
    if numTrainers == 0 {
      return Panic;
    }
    var ids := CutShares(round.dataIndex, BatchSize(c, round.dataIndex * c.sequenceLength), numTrainers);
    return Done(ids);
  }

  method CutShares(start: nat, total: nat, n: nat) returns (ids: seq<BatchId>)
    requires n > 0
    ensures ids == Shares(start, total, n)
  {
    var end := start + total;
    ids := [];
    var current, i := start, 0;
    while i < n
      invariant i <= n && current == start + Cut(total, n, i) && ids == FirstShares(start, total, n, i)
    {
      NextShare(start, total, n, i, current);
      var nodeSize := ShareSize(total, n, i);
      i := i + 1;
      if nodeSize > 0 {
        var batchEnd := current + nodeSize - 1;
        ids := ids + [BatchId(current, batchEnd)];
        current := batchEnd + 1;
        if current >= end {
          break;
        }
      }
    }
    SharedOut(start, total, n, i);
  }

  // Once everything is shared out, the remaining shares are empty.
  lemma LastShare(total: nat, n: nat, k: nat)
    requires n > 0 && 0 < k <= n && k <= total && Cut(total, n, k) >= total
    ensures k == if n < total then n else total
  {
    CutEnds(total, n);
    if k < n && k < total {
      CutGrows(total, n, k);
      CutMonotone(total, n, k + 1, n);
    }
  }

  // ------------------------------------------------------------------ assignment

  // The elements at the chosen places, in order.
  function Chosen<T>(s: seq<T>, who: nat -> bool): (r: seq<T>)
    ensures |r| <= |s|
  {
    if s == [] then [] else Chosen(s[..|s| - 1], who) + if who(|s| - 1) then [s[|s| - 1]] else []
  }

  lemma ChosenNext<T>(s: seq<T>, who: nat -> bool, i: nat)
    requires i < |s|
    ensures Chosen(s[..i + 1], who) == Chosen(s[..i], who) + if who(i) then [s[i]] else []
  {
    assert s[..i + 1][..i] == s[..i];
  }

  lemma {:induction false} ChosenFrom<T>(s: seq<T>, who: nat -> bool)
    ensures multiset(Chosen(s, who)) <= multiset(s)
  {
    if s != [] {
      ChosenFrom(s[..|s| - 1], who);
      assert s == s[..|s| - 1] + [s[|s| - 1]];
    }
  }

  lemma {:induction false} ChosenPlace<T>(s: seq<T>, who: nat -> bool, x: T) returns (i: nat)
    requires x in Chosen(s, who)
    ensures i < |s| && s[i] == x && who(i)
  {
    if x in Chosen(s[..|s| - 1], who) {
      i := ChosenPlace(s[..|s| - 1], who, x);
    } else {
      i := |s| - 1;
    }
  }

  lemma {:induction false} ChosenAlike<T>(s: seq<T>, who: nat -> bool, who': nat -> bool)
    requires forall i: nat :: i < |s| ==> who(i) == who'(i)
    ensures Chosen(s, who) == Chosen(s, who')
  {
    if s != [] {
      ChosenAlike(s[..|s| - 1], who, who');
    }
  }

  // The indices that hold the role.
  function RoleAt(c: Config, sel: Selection, role: Committee): (who: nat -> bool)
  {
    (i: nat) => i < sel.total && sel.GetCommittee(c.sha256, i).committee == role
  }

  lemma RoleAtIs(c: Config, sel: Selection, role: Committee, i: nat)
    requires i < sel.total
    ensures RoleAt(c, sel, role)(i) <==> sel.GetCommittee(c.sha256, i).committee == role
  {
  }

  // The trainers of a selection, in client order.
  function Trainers(c: Config, sel: Selection, ids: seq<NodeIdentity>): (r: seq<NodeIdentity>)
    requires |ids| <= sel.total
    ensures |r| <= |ids|
  {
    Chosen(ids, RoleAt(c, sel, Trainer))
  }

  function ShuffledTrainers(c: Config, s: State, sel: Selection): (r: seq<NodeIdentity>)
    requires |s.clients| <= sel.total
  {
    DeterministicShuffle.Shuffled(Trainers(c, sel, Ids(s.clients)), Current(s).randomSeed)
  }

  // Share k goes to the k-th trainer of the shuffled list.
  function AssignmentOf(start: nat, total: nat, trainers: seq<NodeIdentity>): (a: Assignments)
  {
    if trainers == [] then []
    else
      var shares := Shares(start, total, |trainers|);
      seq(|shares|, k requires 0 <= k < |shares| => (shares[k], trainers[k]))
  }

  // What the trainers of a round are assigned.
  function RoundAssignment(c: Config, s: State, sel: Selection): (a: Assignments)
    requires |s.clients| <= sel.total
  {
    AssignmentOf(Current(s).dataIndex, BatchAt(c, Current(s).dataIndex), ShuffledTrainers(c, s, sel))
  }

  // Looking up the seat of an index past the selection aborts.
  method CollectTrainers(c: Config, s: State, sel: Selection) returns (o: Outcome<seq<NodeIdentity>>)
    ensures o == if |s.clients| <= sel.total then Done(Trainers(c, sel, Ids(s.clients))) else Panic
  {
    var trainers := [];
    ghost var ids, who := Ids(s.clients), RoleAt(c, sel, Trainer);
    for i := 0 to |s.clients|
      invariant i <= sel.total && trainers == Chosen(ids[..i], who)
    {
      if i >= sel.total {
        return Panic;
      }
      ChosenNext(ids, who, i);
      RoleAtIs(c, sel, Trainer, i);
      if sel.GetCommittee(c.sha256, i).committee == Trainer {
        trainers := trainers + [s.clients[i].id];
      }
    }
    assert ids[..|s.clients|] == ids;
    return Done(trainers);
  }

  method AssignData(c: Config, s: State, sel: Selection) returns (o: Outcome<Assignments>)
    ensures o == if |s.clients| <= sel.total then Done(RoundAssignment(c, s, sel)) else Panic
  {
    var trainers :- CollectTrainers(c, s, sel);
    if trainers == [] {
      return Done([]);
    }
    var nodes := new NodeIdentity[|trainers|](i requires 0 <= i < |trainers| => trainers[i]);
    assert nodes[..] == trainers;
    DeterministicShuffle.Shuffle(nodes, Current(s).randomSeed);
    var assignments := SpreadShares(c, Current(s), nodes[..]);
    return Done(assignments);
  }

  method SpreadShares(c: Config, round: Round, nodes: seq<NodeIdentity>) returns (assignments: Assignments)
    requires nodes != []
    ensures assignments == AssignmentOf(round.dataIndex, BatchAt(c, round.dataIndex), nodes)
  {
    assignments := HandOut(round.dataIndex, BatchSize(c, round.dataIndex * c.sequenceLength), nodes);
  }

  // The first i shares with their nodes.
  function FirstHanded(start: nat, total: nat, nodes: seq<NodeIdentity>, i: nat): (a: Assignments)
    requires nodes != [] && i <= |nodes|
  {
    AssignmentOf(start, total, nodes)[..if i < total then i else total]
  }

  lemma NextHanded(start: nat, total: nat, nodes: seq<NodeIdentity>, i: nat, current: nat)
    requires i < |nodes| && current == start + Cut(total, |nodes|, i)
    ensures var size := ShareSize(total, |nodes|, i);
      && start + Cut(total, |nodes|, i + 1) == current + size
      && FirstHanded(start, total, nodes, i + 1) ==
           FirstHanded(start, total, nodes, i) + if size > 0 then [(BatchId(current, current + size - 1), nodes[i])] else []
  {
    NextShare(start, total, |nodes|, i, current);
  }

  method HandOut(start: nat, total: nat, nodes: seq<NodeIdentity>) returns (assignments: Assignments)
    requires nodes != []
    ensures assignments == AssignmentOf(start, total, nodes)
  {
    assignments := [];
    var current := start;
    for i := 0 to |nodes|
      invariant current == start + Cut(total, |nodes|, i) && assignments == FirstHanded(start, total, nodes, i)
    {
      NextHanded(start, total, nodes, i, current);
      var size := ShareSize(total, |nodes|, i);
      if size > 0 {
        var end := current + size - 1;
        assignments := assignments + [(BatchId(current, end), nodes[i])];
        current := end + 1;
      }
    }
    assert FirstHanded(start, total, nodes, |nodes|) == AssignmentOf(start, total, nodes);
  }

  // ------------------------------------------------------------------ what an assignment guarantees

  // The identity holds a trainer seat.
  ghost predicate SeatedTrainer(c: Config, sel: Selection, ids: seq<NodeIdentity>, id: NodeIdentity)
  {
    exists i: nat :: i < |ids| && i < sel.total && ids[i] == id && sel.GetCommittee(c.sha256, i).committee == Trainer
  }

  lemma TrainersAreSeated(c: Config, sel: Selection, ids: seq<NodeIdentity>)
    requires |ids| <= sel.total
    ensures forall t :: t in Trainers(c, sel, ids) ==> SeatedTrainer(c, sel, ids, t)
  {
    forall t | t in Trainers(c, sel, ids)
      ensures SeatedTrainer(c, sel, ids, t)
    {
      var i := ChosenPlace(ids, RoleAt(c, sel, Trainer), t);
      assert RoleAt(c, sel, Trainer)(i);
    }
  }

  // Every shuffled trainer is a client in a trainer seat, and none appears twice.
  lemma ShuffledTrainersFacts(c: Config, s: State, sel: Selection)
    requires |s.clients| <= sel.total && NoRepeats(Roster(s))
    ensures forall t :: t in ShuffledTrainers(c, s, sel) ==> SeatedTrainer(c, sel, Ids(s.clients), t)
    ensures Distinct(ShuffledTrainers(c, s, sel))
  {
    var plain, shuffled := Trainers(c, sel, Ids(s.clients)), ShuffledTrainers(c, s, sel);
    DeterministicShuffle.ShuffleIsPermutation(plain, Current(s).randomSeed);
    ChosenFrom(Ids(s.clients), RoleAt(c, sel, Trainer));
    TrainersAreSeated(c, sel, Ids(s.clients));
    forall t | t in shuffled
      ensures t in plain
    {
      assert t in multiset(shuffled);
    }
    forall j, k | 0 <= j < k < |shuffled|
      ensures shuffled[j] != shuffled[k]
    {
      assert multiset(shuffled)[shuffled[k]] <= Roster(s)[shuffled[k]] <= 1;
      if shuffled[j] == shuffled[k] {
        RepeatCounts(shuffled, j, k);
      }
    }
  }

  // The whole round is handed out, each index once, in key order and evenly.
  lemma AssignmentTilesTheRound(start: nat, total: nat, trainers: seq<NodeIdentity>, d: nat)
    requires trainers != []
    ensures var a := AssignmentOf(start, total, trainers);
      && (start <= d < start + total <==> exists k :: 0 <= k < |a| && a[k].0.Covers(d))
      && (forall j, k :: 0 <= j < k < |a| ==> a[j].0.end < a[k].0.start)
  {
    var n, a := |trainers|, AssignmentOf(start, total, trainers);
    var shares := Shares(start, total, n);
    SharesTile(start, total, n, d);
    if k :| 0 <= k < |shares| && shares[k].Covers(d) {
      assert a[k].0.Covers(d);
    }
  }

  // The trainers get their shares in their order, one each while there is data; nobody gets more than an earlier one
  // or less than one item below it.
  lemma AssignmentIsFair(start: nat, total: nat, trainers: seq<NodeIdentity>)
    requires trainers != []
    ensures var a := AssignmentOf(start, total, trainers);
      && |a| == (if |trainers| < total then |trainers| else total)
      && (forall k :: 0 <= k < |a| ==> a[k].1 == trainers[k])
      && (forall j, k :: 0 <= j < k < |a| ==> 0 <= a[j].0.Size() - a[k].0.Size() <= 1)
      && (|a| < |trainers| ==> forall k :: 0 <= k < |a| ==> a[k].0.Size() == 1)
  {
    var n, a := |trainers|, AssignmentOf(start, total, trainers);
    forall j, k | 0 <= j < k < |a|
      ensures 0 <= a[j].0.Size() - a[k].0.Size() <= 1
    {
      SharesAreEven(start, total, n, j, k);
      SharesAreEven(start, total, n, k, j);
    }
    forall k | 0 <= k < |a|
      ensures |a| < n ==> a[k].0.Size() == 1
    {
      if |a| < n {
        DivFacts(total, n);
        CutGrows(total, n, k);
      }
    }
  }

  lemma {:induction false} ChosenNone<T>(s: seq<T>, who: nat -> bool)
    requires forall k: nat :: k < |s| ==> !who(k)
    ensures Chosen(s, who) == []
  {
    if s != [] {
      ChosenNone(s[..|s| - 1], who);
    }
  }

  lemma {:induction false} ChosenOne<T>(s: seq<T>, who: nat -> bool, i: nat)
    requires i < |s| && forall k: nat :: k < |s| ==> (who(k) <==> k == i)
    ensures Chosen(s, who) == [s[i]]
  {
    if i == |s| - 1 {
      ChosenNone(s[..i], who);
    } else {
      ChosenOne(s[..|s| - 1], who, i);
    }
  }

  lemma {:induction false} ChosenTwo<T>(s: seq<T>, who: nat -> bool, i: nat, j: nat)
    requires i < j < |s| && forall k: nat :: k < |s| ==> (who(k) <==> k == i || k == j)
    ensures Chosen(s, who) == [s[i], s[j]]
  {
    if j == |s| - 1 {
      ChosenOne(s[..j], who, i);
    } else {
      ChosenTwo(s[..|s| - 1], who, i, j);
    }
  }

  // The seed of the round decides who gets which share: of two trainers the one in front gets the first share
  // exactly when the seed is even.
  lemma SeedDecidesShares(c: Config, s: State, sel: Selection, i: nat, j: nat)
    requires i < j < |s.clients| <= sel.total
    requires forall k: nat :: k < |s.clients| ==> (RoleAt(c, sel, Trainer)(k) <==> k == i || k == j)
    ensures var a, b := s.clients[i].id, s.clients[j].id;
      ShuffledTrainers(c, s, sel) == if Current(s).randomSeed % 2 == 0 then [a, b] else [b, a]
  {
    ChosenTwo(Ids(s.clients), RoleAt(c, sel, Trainer), i, j);
    DeterministicShuffle.TwoTradeIffOdd(s.clients[i].id, s.clients[j].id, Current(s).randomSeed);
  }

  // Only trainers are assigned data, each at most one interval.
  lemma AssignmentGoesToTrainers(c: Config, s: State, sel: Selection)
    requires |s.clients| <= sel.total && NoRepeats(Roster(s))
    ensures var a := RoundAssignment(c, s, sel);
      && (forall k :: 0 <= k < |a| ==> SeatedTrainer(c, sel, Ids(s.clients), a[k].1))
      && (forall j, k :: 0 <= j < k < |a| ==> a[j].1 != a[k].1)
  {
    ShuffledTrainersFacts(c, s, sel);
    var a := RoundAssignment(c, s, sel);
    forall k | 0 <= k < |a|
      ensures a[k].1 in ShuffledTrainers(c, s, sel)
    {
    }
  }

  // ------------------------------------------------------------------ data index of a step

  method DataIndexForStep(c: Config, targetStep: nat) returns (current: nat)
    ensures current == if targetStep > c.totalSteps then 0 else StepStart(c, targetStep)
  {
    if targetStep <= 1 || targetStep > c.totalSteps {
      return 0;
    }
    current := 0;
    for i := 1 to targetStep
      invariant current == StepStart(c, i)
    {
      current := current + BatchSize(c, current * c.sequenceLength);
    }
  }

  // ------------------------------------------------------------------ counting seats

  // The chosen numbers below m, in order.
  function Places(who: nat -> bool, m: nat): (r: seq<nat>)
    ensures forall k :: 0 <= k < |r| ==> r[k] < m && who(r[k])
    ensures forall j, k :: 0 <= j < k < |r| ==> r[j] < r[k]
  {
    if m == 0 then [] else Places(who, m - 1) + if who(m - 1) then [m - 1] else []
  }

  lemma {:induction false} PlaceListed(who: nat -> bool, m: nat, i: nat) returns (k: nat)
    requires i < m && who(i)
    ensures k < |Places(who, m)| && Places(who, m)[k] == i
    decreases m
  {
    if i == m - 1 {
      k := |Places(who, m)| - 1;
    } else {
      k := PlaceListed(who, m - 1, i);
    }
  }

  lemma {:induction false} AsManyAsPlaces<T>(s: seq<T>, who: nat -> bool)
    ensures |Chosen(s, who)| == |Places(who, |s|)|
  {
    if s != [] {
      AsManyAsPlaces(s[..|s| - 1], who);
    }
  }

  // The indices below m that hold the role, in order.
  function SeatsOf(c: Config, sel: Selection, role: Committee, m: nat): (r: seq<nat>)
    requires m <= sel.total
    ensures forall k :: 0 <= k < |r| ==> r[k] < m && sel.GetCommittee(c.sha256, r[k]).committee == role
    ensures forall j, k :: 0 <= j < k < |r| ==> r[j] < r[k]
  {
    Places(RoleAt(c, sel, role), m)
  }

  ghost function Elements(s: seq<nat>): (r: set<nat>) { set x | x in s }

  lemma {:induction false} IncreasingCount(s: seq<nat>)
    requires forall j, k :: 0 <= j < k < |s| ==> s[j] < s[k]
    ensures |Elements(s)| == |s|
  {
    if s != [] {
      var last := |s| - 1;
      IncreasingCount(s[..last]);
      assert s == s[..last] + [s[last]];
      assert Elements(s) == Elements(s[..last]) + {s[last]};
    }
  }

  lemma SeatsAreMembers(c: Config, sel: Selection, role: Committee)
    ensures |SeatsOf(c, sel, role, sel.total)| == |Members(sel, c.sha256, role)|
  {
    var seats := SeatsOf(c, sel, role, sel.total);
    IncreasingCount(seats);
    forall i | i in Members(sel, c.sha256, role)
      ensures i in Elements(seats)
    {
      var k := SeatListed(c, sel, role, sel.total, i);
    }
    assert Elements(seats) == Members(sel, c.sha256, role);
  }

  // Over the whole selection there are exactly as many seats as the selection sets aside.
  lemma SeatCounts(c: Config, sel: Selection)
    requires sel.Valid()
    ensures |SeatsOf(c, sel, Verifier, sel.total)| == sel.verifiers
    ensures |SeatsOf(c, sel, Trainer, sel.total)| == sel.Trainers()
  {
    CommitteeSizes(sel, c.sha256);
    SeatsAreMembers(c, sel, Verifier);
    SeatsAreMembers(c, sel, Trainer);
  }

  // A full client list yields exactly the selection's trainers.
  lemma TrainerCount(c: Config, s: State, sel: Selection)
    requires sel.Valid() && |s.clients| == sel.total
    ensures |ShuffledTrainers(c, s, sel)| == sel.Trainers()
  {
    AsManyAsPlaces(Ids(s.clients), RoleAt(c, sel, Trainer));
    SeatCounts(c, sel);
  }

  lemma SeatListed(c: Config, sel: Selection, role: Committee, m: nat, i: nat) returns (k: nat)
    requires i < m <= sel.total && sel.GetCommittee(c.sha256, i).committee == role
    ensures k < |SeatsOf(c, sel, role, m)| && SeatsOf(c, sel, role, m)[k] == i
  {
    k := PlaceListed(RoleAt(c, sel, role), m, i);
  }

  // The share of verifiers leaves somebody to train exactly when it is below all of them.
  lemma SomeTrainersIff(nodes: nat, percent: nat)
    requires nodes > 0
    ensures nodes * percent / 100 < nodes <==> percent < 100
  {
    if percent < 100 {
      assert nodes * percent <= nodes * 99;
    } else {
      assert nodes * percent >= nodes * 100;
    }
  }

  // A round without tie-breakers has a trainer exactly when not everybody verifies.
  lemma RoundHasTrainersIff(c: Config, s: State, sel: Selection)
    requires SelectionFor(c, Current(s)) == Ok(sel) && Current(s).tieBreakerTasks == 0
    requires 0 < |s.clients| == sel.total
    ensures ShuffledTrainers(c, s, sel) != [] <==> c.verificationPercent < 100
  {
    TrainerCount(c, s, sel);
    SomeTrainersIff(sel.total, c.verificationPercent);
  }

  // The trainers of the round in progress; none when the selection is refused.
  function RoundTrainers(c: Config, s: State): (r: seq<NodeIdentity>)
  {
    match SelectionFor(c, Current(s))
    case Err(_) => []
    case Ok(sel) => if |s.clients| <= sel.total then ShuffledTrainers(c, s, sel) else []
  }
}
