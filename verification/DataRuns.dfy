/** Data assignment over whole runs. */
module DataRuns {
  import opened Wrappers
  import opened Sequences
  import opened CommitteeDraw
  import opened CoordinatorSpec
  import opened CoordinatorInvariants
  import opened CoordinatorRuns
  import opened DataSelection

  lemma {:induction false} StepStartMonotone(c: Config, i: nat, j: nat)
    requires 1 <= i <= j
    ensures StepStart(c, i) <= StepStart(c, j)
    decreases j
  {
    if i < j {
      StepStartMonotone(c, i, j - 1);
    }
  }

  // The step whose round holds data index d.
  lemma FindStep(c: Config, n: nat, d: nat) returns (i: nat)
    requires d < StepStart(c, n + 1)
    ensures i < n && StepStart(c, i + 1) <= d < StepStart(c, i + 2)
  {
    i := n - 1;
    while d < StepStart(c, i + 1)
      invariant 0 <= i < n && d < StepStart(c, i + 2)
      decreases i
    {
      i := i - 1;
    }
  }

  // What the trainers of round i of the run were assigned.
  ghost function Assigned(h: History, i: nat): (a: Assignments)
    requires i < |h.log| && i < |h.trainers|
  {
    AssignmentOf(h.log[i].0, h.log[i].1, h.trainers[i])
  }

  // Data index d is in the k-th assignment of round i.
  ghost predicate AssignedAt(h: History, d: nat, i: nat, k: nat)
  {
    i < |h.log| && i < |h.trainers| && k < |Assigned(h, i)| && Assigned(h, i)[k].0.Covers(d)
  }

  // The assignment that any client computes during a round is the one on record for it, whenever the client
  // looks.
  lemma AssignmentIsOnRecord(c: Config, x: Traced, sel: Selection)
    requires ConfigOk(c) && Reachable(c, x) && InRound(x.s.runState) && SelectionFor(c, Current(x.s)) == Ok(sel)
    ensures |x.s.clients| == sel.total && |x.h.log| == |x.h.trainers| == x.s.step > 0
    ensures RoundAssignment(c, x.s, sel) == Assigned(x.h, x.s.step - 1)
  {
    ReachableInv(c, x);
    RoundDataIndex(c, x.s);
    OnRecord(c, x, sel);
  }

  lemma OnRecord(c: Config, x: Traced, sel: Selection)
    requires LogComplete(c, x) && TrainersKnown(c, x) && InRound(x.s.runState) && x.s.step > 0
    requires SelectionFor(c, Current(x.s)) == Ok(sel) && |x.s.clients| == Current(x.s).clientsLen
    requires Current(x.s).dataIndex == StepStart(c, x.s.step)
    ensures |x.s.clients| == sel.total && |x.h.log| == |x.h.trainers| == x.s.step
    ensures RoundAssignment(c, x.s, sel) == Assigned(x.h, x.s.step - 1)
  {
    assert x.h.log[x.s.step - 1] == (StepStart(c, x.s.step), BatchAt(c, StepStart(c, x.s.step)));
  }

  // What the clients of a round set out to train on: nothing once the last step of the epoch is fixed.
  function Taken(c: Config, s: State, sel: Selection): (a: Assignments)
    requires |s.clients| <= sel.total
  {
    if s.lastStep != 0 then [] else RoundAssignment(c, s, sel)
  }

  // The clients take up the data on record for their round exactly when the last step of the epoch is still
  // open, or there is nothing to take up.
  lemma TakenIsOnRecordIff(c: Config, x: Traced, sel: Selection)
    requires ConfigOk(c) && Reachable(c, x) && InRound(x.s.runState) && SelectionFor(c, Current(x.s)) == Ok(sel)
    ensures |x.s.clients| == sel.total && |x.h.log| == |x.h.trainers| == x.s.step > 0
    ensures Taken(c, x.s, sel) == Assigned(x.h, x.s.step - 1) <==>
      x.s.lastStep == 0 || c.verificationPercent == 100 || BatchAt(c, Current(x.s).dataIndex) == 0
  {
    AssignmentIsOnRecord(c, x, sel);
    RoundSeats(c, x);
    RoundHasTrainersIff(c, x.s, sel);
  }

  lemma RoundSeats(c: Config, x: Traced)
    requires ConfigOk(c) && Reachable(c, x) && InRound(x.s.runState)
    ensures Current(x.s).tieBreakerTasks == 0 && NoRepeats(Roster(x.s)) && |x.s.clients| > 0
  {
    ReachableInv(c, x);
    assert InWindow(x.s, 0) && RoundFacts(c, x.s, 0);
  }

  lemma AssignedInItsRound(h: History, d: nat, i: nat, k: nat)
    requires AssignedAt(h, d, i, k)
    ensures h.log[i].0 <= d < h.log[i].0 + h.log[i].1
  {
    AssignmentTilesTheRound(h.log[i].0, h.log[i].1, h.trainers[i], d);
  }

  lemma AssignedOnce(c: Config, h: History, d: nat, i: nat, k: nat, i': nat, k': nat)
    requires LogIsRight(c, h.log) && AssignedAt(h, d, i, k) && AssignedAt(h, d, i', k')
    ensures i' == i && k' == k
  {
    AssignedInItsRound(h, d, i, k);
    AssignedInItsRound(h, d, i', k');
    if i' < i {
      StepStartMonotone(c, i' + 2, i + 1);
    } else if i < i' {
      StepStartMonotone(c, i + 2, i' + 1);
    } else {
      AssignmentTilesTheRound(h.log[i].0, h.log[i].1, h.trainers[i], d);
    }
  }

  lemma AssignedSomewhere(c: Config, h: History, d: nat) returns (i: nat, k: nat)
    requires LogIsRight(c, h.log) && |h.trainers| == |h.log| && d < StepStart(c, |h.log| + 1)
    requires forall j :: 0 <= j < |h.trainers| ==> h.trainers[j] != []
    ensures AssignedAt(h, d, i, k)
  {
    i := FindStep(c, |h.log|, d);
    AssignmentTilesTheRound(h.log[i].0, h.log[i].1, h.trainers[i], d);
    k :| 0 <= k < |Assigned(h, i)| && Assigned(h, i)[k].0.Covers(d);
  }

  lemma ReachableRecords(c: Config, x: Traced)
    requires ConfigOk(c) && Reachable(c, x)
    ensures LogIsRight(c, x.h.log) && |x.h.log| == |x.h.trainers| && TrainersRight(c, x.h.trainers)
  {
    ReachableInv(c, x);
  }

  lemma AssignedIff(c: Config, h: History, d: nat)
    requires LogIsRight(c, h.log) && |h.log| == |h.trainers| && TrainersRight(c, h.trainers)
    requires d < StepStart(c, |h.log| + 1)
    ensures (exists i: nat, k: nat :: AssignedAt(h, d, i, k)) <==> c.verificationPercent < 100
  {
    if c.verificationPercent < 100 {
      forall j | 0 <= j < |h.trainers|
        ensures h.trainers[j] != []
      {
        assert TrainersOk(c, h.trainers[j]);
      }
      var i, k := AssignedSomewhere(c, h, d);
    } else {
      forall i: nat, k: nat
        ensures !AssignedAt(h, d, i, k)
      {
        NobodyToAssign(c, h, d, i, k);
      }
    }
  }

  lemma NobodyToAssign(c: Config, h: History, d: nat, i: nat, k: nat)
    requires TrainersRight(c, h.trainers) && c.verificationPercent >= 100
    ensures !AssignedAt(h, d, i, k)
  {
    assert i < |h.trainers| ==> TrainersOk(c, h.trainers[i]);
  }

  // Over every run, every data index reached is assigned exactly when not everybody verifies; then it is
  // assigned in exactly one round and to exactly one of its trainers, who are all different.
  lemma DataIsAssignedOnceIff(c: Config, x: Traced, d: nat)
    requires ConfigOk(c) && Reachable(c, x) && d < StepStart(c, |x.h.log| + 1)
    ensures (exists i: nat, k: nat :: AssignedAt(x.h, d, i, k)) <==> c.verificationPercent < 100
    ensures forall i: nat, k: nat, i': nat, k': nat :: AssignedAt(x.h, d, i, k) && AssignedAt(x.h, d, i', k') ==> i' == i && k' == k
    ensures forall i :: 0 <= i < |x.h.trainers| ==> Distinct(x.h.trainers[i])
  {
    ReachableRecords(c, x);
    AssignedIff(c, x.h, d);
    forall i: nat, k: nat, i': nat, k': nat | AssignedAt(x.h, d, i, k) && AssignedAt(x.h, d, i', k')
      ensures i' == i && k' == k
    {
      AssignedOnce(c, x.h, d, i, k, i', k');
    }
    assert forall i :: 0 <= i < |x.h.trainers| ==> TrainersOk(c, x.h.trainers[i]);
  }
}
