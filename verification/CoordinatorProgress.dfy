/** Progress: ticks past the timeouts end every epoch. */
module CoordinatorProgress {
  import opened Wrappers
  import opened CommitteeDraw
  import opened CoordinatorSpec
  import opened CoordinatorInvariants
  import opened CoordinatorSteps
  import opened CoordinatorCases
  import opened CoordinatorEffects
  import opened CoordinatorRuns
  import opened CoordinatorTheorems

  predicate InEpoch(r: RunState) { r == Warmup || IsActive(r) }

  // A tick at this time finds the state timed out.
  predicate Overdue(c: Config, s: State, now: nat)
  {
    match s.runState
    case Warmup => Passed(s.stateStart, now, c.warmupTime)
    case RoundTrain => Passed(s.stateStart, now, c.maxRoundTrainTime)
    case RoundWitness => Passed(s.stateStart, now, c.roundWitnessTime)
    case Cooldown => Passed(s.stateStart, now, c.cooldownTime)
    case _ => false
  }

  // Phases the epoch can still go through: two for each step left, the warmup and the cooldown.
  function PhasesLeft(c: Config, s: State): (n: int)
  {
    match s.runState
    case Warmup => 2 * (c.totalSteps - s.step) + 2
    case RoundTrain => 2 * (c.totalSteps - s.step) + 1
    case RoundWitness => 2 * (c.totalSteps - s.step)
    case Cooldown => 1
    case _ => 0
  }

  lemma PhaseBounds(c: Config, s: State)
    requires ConfigOk(c) && Inv(c, s) && InEpoch(s.runState)
    ensures 1 <= PhasesLeft(c, s) <= 2 * c.totalSteps
  {
  }

  // ------------------------------------------------------------------ one operation

  lemma WarmupTickMoves(c: Config, s: State, pending: Option<seq<NodeIdentity>>, now: nat, seed: nat)
    requires ConfigOk(c) && Inv(c, s) && s.runState == Warmup
    ensures TickStep(c, s, pending, now, seed).Done?
    ensures var t := TickStep(c, s, pending, now, seed).value.0;
      if Passed(s.stateStart, now, c.warmupTime) then t.runState == RoundTrain && t.step == s.step
      else InEpoch(t.runState) ==> t.runState == Warmup && t.step == s.step
  {
    WarmupTickCases(c, s, pending, now, seed);
  }

  lemma WarmupReportMoves(c: Config, s: State, op: Op)
    requires op.WarmupWitness? && s.runState == Warmup
    ensures var t := After(c, s, op); (t.runState == Warmup || t.runState == RoundTrain) && t.step == s.step
  {
    var o := WarmupWitnessStep(c, s, op.from, op.w, op.now, op.seed);
    if o.Done? {
      WarmupWitnessIs(c, s, op.from, op.w, op.now, op.seed);
    }
  }

  lemma WarmupRequestMoves(c: Config, s: State, op: Op)
    requires !op.Tick? && !op.WarmupWitness? && s.runState == Warmup
    ensures var t := After(c, s, op); InEpoch(t.runState) ==> t.runState == Warmup && t.step == s.step
  {
  }

  // In a round and in cooldown a tick leaves the state it finds exactly when its time is over; otherwise it changes
  // nothing.
  lemma TickLeavesIff(c: Config, s: State, pending: Option<seq<NodeIdentity>>, now: nat, seed: nat)
    requires ConfigOk(c) && Inv(c, s) && IsActive(s.runState)
    ensures TickStep(c, s, pending, now, seed).Done?
    ensures var t, time := TickStep(c, s, pending, now, seed).value.0,
        if s.runState == RoundTrain then c.maxRoundTrainTime
        else if s.runState == RoundWitness then c.roundWitnessTime
        else c.cooldownTime;
      if now != s.stateStart && now - s.stateStart >= time then t.runState != s.runState && t.stateStart == now
      else TickStep(c, s, pending, now, seed) == Done((s, Ok(Ticked)))
  {
    match s.runState
    case RoundTrain => TrainTickCases(c, s, pending, now, seed);
    case RoundWitness => WitnessTickCases(c, s, pending, now, seed);
    case Cooldown => CooldownTickCases(c, s, pending, now, seed);
  }

  // A tick past the timeout leaves the state it finds.
  lemma OverdueTickLeaves(c: Config, s: State, op: Op)
    requires ConfigOk(c) && Inv(c, s) && op.Tick? && Overdue(c, s, op.now)
    ensures After(c, s, op).runState != s.runState
  {
    if s.runState == Warmup {
      WarmupTickMoves(c, s, op.pending, op.now, op.seed);
    } else {
      TickLeavesIff(c, s, op.pending, op.now, op.seed);
    }
    TickIs(c, s, op);
  }

  lemma WarmupStep(c: Config, s: State, op: Op)
    requires ConfigOk(c) && Inv(c, s) && s.runState == Warmup && InEpoch(After(c, s, op).runState)
    ensures PhasesLeft(c, After(c, s, op)) <= PhasesLeft(c, s) - if After(c, s, op).runState == s.runState then 0 else 1
  {
    if op.Tick? {
      WarmupTickMoves(c, s, op.pending, op.now, op.seed);
      TickIs(c, s, op);
    } else if op.WarmupWitness? {
      WarmupReportMoves(c, s, op);
    } else {
      WarmupRequestMoves(c, s, op);
    }
  }

  lemma ActiveStep(c: Config, s: State, op: Op)
    requires Inv(c, s) && IsActive(s.runState) && InEpoch(After(c, s, op).runState)
    ensures PhasesLeft(c, After(c, s, op)) <= PhasesLeft(c, s) - if After(c, s, op).runState == s.runState then 0 else 1
  {
    StaysActive(c, s, op);
    if op.Tick? {
      ActiveTick(c, s, op);
    } else {
      OnlyTicksAdvance(c, s, op);
    }
  }

  lemma StaysActive(c: Config, s: State, op: Op)
    requires IsActive(s.runState)
    ensures After(c, s, op).runState != Warmup
  {
    if op.Tick? {
      ActiveTick(c, s, op);
      if s.runState == Cooldown && TickStep(c, s, op.pending, op.now, op.seed).Done? {
        CooldownTickLeaves(c, s, op.now);
      }
    } else {
      OnlyTicksAdvance(c, s, op);
    }
  }

  lemma CooldownTickLeaves(c: Config, s: State, now: nat)
    requires s.runState == Cooldown && TickCooldown(c, s, now).Done?
    ensures TickCooldown(c, s, now).value.0.runState != Warmup
  {
  }

  // No operation adds to the phases left, and leaving a phase uses one up.
  lemma PhasesGoDown(c: Config, s: State, op: Op)
    requires ConfigOk(c) && Inv(c, s) && InEpoch(s.runState) && InEpoch(After(c, s, op).runState)
    ensures PhasesLeft(c, After(c, s, op)) <= PhasesLeft(c, s) - if op.Tick? && Overdue(c, s, op.now) then 1 else 0
  {
    if s.runState == Warmup {
      WarmupStep(c, s, op);
    } else {
      ActiveStep(c, s, op);
    }
    if op.Tick? && Overdue(c, s, op.now) {
      OverdueTickLeaves(c, s, op);
    }
  }

  // ------------------------------------------------------------------ over every run

  // Operation j is a tick past the timeout of the state it finds.
  predicate OverdueAt(c: Config, xs: seq<Traced>, ops: seq<Op>, j: nat)
    requires j < |ops| && |xs| == |ops| + 1
  {
    ops[j].Tick? && Overdue(c, xs[j].s, ops[j].now)
  }

  // How many of the operations i to k - 1 are.
  function OverdueTicks(c: Config, xs: seq<Traced>, ops: seq<Op>, i: nat, k: nat): (n: nat)
    requires i <= k <= |ops| && |xs| == |ops| + 1
    decreases k
  {
    if k == i then 0 else OverdueTicks(c, xs, ops, i, k - 1) + if OverdueAt(c, xs, ops, k - 1) then 1 else 0
  }

  // Operation j leaves no more phases, and one less when it is overdue.
  ghost predicate PhasesGoDownAt(c: Config, xs: seq<Traced>, ops: seq<Op>, j: nat)
    requires j < |ops| && |xs| == |ops| + 1
  {
    PhasesLeft(c, xs[j + 1].s) <= PhasesLeft(c, xs[j].s) - if OverdueAt(c, xs, ops, j) then 1 else 0
  }

  lemma RunGoesDown(c: Config, xs: seq<Traced>, ops: seq<Op>, j: nat)
    requires ConfigOk(c) && IsRun(c, xs, ops) && FromInit(c, xs[0]) && j < |ops|
    requires InEpoch(xs[j].s.runState) && InEpoch(xs[j + 1].s.runState)
    ensures PhasesGoDownAt(c, xs, ops, j)
  {
    RunKeepsTracedInv(c, xs, ops, j);
    RunNext(c, xs, ops, j);
    PhasesGoDown(c, xs[j].s, ops[j]);
  }

  lemma {:induction false} PhasesOverRun(c: Config, xs: seq<Traced>, ops: seq<Op>, i: nat, k: nat)
    requires |xs| == |ops| + 1 && i <= k < |xs|
    requires forall j :: i <= j < k ==> PhasesGoDownAt(c, xs, ops, j)
    ensures OverdueTicks(c, xs, ops, i, k) + PhasesLeft(c, xs[k].s) <= PhasesLeft(c, xs[i].s)
    decreases k
  {
    if k > i {
      PhasesOverRun(c, xs, ops, i, k - 1);
      assert PhasesGoDownAt(c, xs, ops, k - 1);
    }
  }

  // In every run, whatever else happens between them, an epoch lasts through fewer overdue ticks than it had
  // phases left: the next one ends it at the latest.
  lemma EpochsEnd(c: Config, xs: seq<Traced>, ops: seq<Op>, i: nat, k: nat)
    requires ConfigOk(c) && IsRun(c, xs, ops) && FromInit(c, xs[0]) && i <= k < |xs|
    requires forall j :: i <= j <= k ==> InEpoch(xs[j].s.runState)
    ensures OverdueTicks(c, xs, ops, i, k) < PhasesLeft(c, xs[i].s) <= 2 * c.totalSteps
  {
    forall j | i <= j < k
      ensures PhasesGoDownAt(c, xs, ops, j)
    {
      RunGoesDown(c, xs, ops, j);
    }
    PhasesOverRun(c, xs, ops, i, k);
    ReachedPhases(c, xs, ops, i);
    ReachedPhases(c, xs, ops, k);
  }

  lemma ReachedPhases(c: Config, xs: seq<Traced>, ops: seq<Op>, k: nat)
    requires ConfigOk(c) && IsRun(c, xs, ops) && FromInit(c, xs[0]) && k < |xs| && InEpoch(xs[k].s.runState)
    ensures 1 <= PhasesLeft(c, xs[k].s) <= 2 * c.totalSteps
  {
    RunKeepsTracedInv(c, xs, ops, k);
    PhaseBounds(c, xs[k].s);
  }

  // ------------------------------------------------------------------ how long a state lasts

  predicate HasClock(op: Op) { op.Tick? || op.WarmupWitness? || op.SendWitness? || op.Pause? || op.Resume? }

  // An operation that leaves the run in its state leaves its clock; one that does not sets it.
  ghost predicate ClockFollows(s: State, op: Op, t: State)
  {
    if t.runState == s.runState then t.stateStart == s.stateStart else HasClock(op) && t.stateStart == op.now
  }

  lemma TickSetsClock(c: Config, s: State, op: Op)
    requires ConfigOk(c) && Inv(c, s) && op.Tick?
    ensures ClockFollows(s, op, After(c, s, op))
  {
    match s.runState {
      case WaitingForMembers =>
        TickWaitingCases(c, s, op.pending, op.now);
        WaitingTickIs(c, s, op.pending, op.now, op.seed);
      case Warmup => WarmupTickCases(c, s, op.pending, op.now, op.seed);
      case RoundTrain => TrainTickCases(c, s, op.pending, op.now, op.seed);
      case RoundWitness => WitnessTickCases(c, s, op.pending, op.now, op.seed);
      case Cooldown => CooldownTickCases(c, s, op.pending, op.now, op.seed);
      case _ => HaltedTick(c, s, op.pending, op.now, op.seed);
    }
    TickIs(c, s, op);
  }

  lemma WarmupReportSetsClock(c: Config, s: State, op: Op)
    requires op.WarmupWitness?
    ensures ClockFollows(s, op, After(c, s, op))
  {
    if WarmupWitnessStep(c, s, op.from, op.w, op.now, op.seed).Done? {
      WarmupWitnessIs(c, s, op.from, op.w, op.now, op.seed);
    }
  }

  lemma ReportSetsClock(c: Config, s: State, op: Op)
    requires ConfigOk(c) && Inv(c, s) && op.SendWitness?
    ensures ClockFollows(s, op, After(c, s, op))
    ensures s.runState == RoundTrain && After(c, s, op).runState != RoundTrain ==>
      SelectionFor(c, Current(s)).Ok? &&
      StoredIndices(Current(After(c, s, op)).witnesses) == Witnesses(SelectionFor(c, Current(s)).value, c.sha256)
  {
    if InRound(s.runState) && SelectionFor(c, Current(s)).Ok? {
      WitnessCases(c, s, SelectionFor(c, Current(s)).value, op.from, op.w, op.now);
      if s.runState == RoundTrain && WitnessStep(c, s, op.from, op.w, op.now).value.1.Ok? {
        TrainingEndsWhenAllWitnessed(c, s, op.from, op.w, op.now);
      }
    } else {
      OutOfPlaceReports(c, s, op.from, op.w, op.now);
    }
    WitnessIs(c, s, op);
  }

  lemma RequestSetsClock(c: Config, s: State, op: Op)
    requires op.HealthCheck? || op.Withdraw? || op.Eject? || op.Pause? || op.Resume?
    ensures ClockFollows(s, op, After(c, s, op))
  {
  }

  lemma StepSetsClock(c: Config, s: State, op: Op)
    requires ConfigOk(c) && Inv(c, s)
    ensures ClockFollows(s, op, After(c, s, op))
  {
    if op.Tick? {
      TickSetsClock(c, s, op);
    } else if op.WarmupWitness? {
      WarmupReportSetsClock(c, s, op);
    } else if op.SendWitness? {
      ReportSetsClock(c, s, op);
    } else {
      RequestSetsClock(c, s, op);
    }
  }

  lemma RunSetsClock(c: Config, xs: seq<Traced>, ops: seq<Op>, j: nat)
    requires ConfigOk(c) && IsRun(c, xs, ops) && FromInit(c, xs[0]) && j < |ops|
    ensures ClockFollows(xs[j].s, ops[j], xs[j + 1].s)
  {
    RunKeepsTracedInv(c, xs, ops, j);
    RunNext(c, xs, ops, j);
    StepSetsClock(c, xs[j].s, ops[j]);
  }

  // Operation i enters the state that the run is in up to k.
  ghost predicate LastsFrom(xs: seq<Traced>, i: nat, k: nat)
    requires i < k < |xs|
  {
    && xs[i].s.runState != xs[i + 1].s.runState
    && forall j :: i < j <= k ==> xs[j].s.runState == xs[k].s.runState
  }

  lemma {:induction false} ClockSince(xs: seq<Traced>, ops: seq<Op>, i: nat, k: nat)
    requires |xs| == |ops| + 1 && i < k < |xs| && LastsFrom(xs, i, k)
    requires forall j :: i <= j < k ==> ClockFollows(xs[j].s, ops[j], xs[j + 1].s)
    ensures HasClock(ops[i]) && xs[k].s.stateStart == ops[i].now
    decreases k
  {
    assert ClockFollows(xs[k - 1].s, ops[k - 1], xs[k].s);
    if k > i + 1 {
      ClockSince(xs, ops, i, k - 1);
    }
  }

  lemma RunClockSince(c: Config, xs: seq<Traced>, ops: seq<Op>, i: nat, k: nat)
    requires ConfigOk(c) && IsRun(c, xs, ops) && FromInit(c, xs[0]) && i < k < |xs| && LastsFrom(xs, i, k)
    ensures i < |ops| && HasClock(ops[i]) && xs[k].s.stateStart == ops[i].now
  {
    forall j | i <= j < k
      ensures ClockFollows(xs[j].s, ops[j], xs[j + 1].s)
    {
      RunSetsClock(c, xs, ops, j);
    }
    ClockSince(xs, ops, i, k);
  }

  // Why an active state is left, told of one operation.
  ghost predicate LeftInTime(c: Config, s: State, op: Op, t: State)
  {
    match s.runState
    case RoundTrain =>
      || (op.Tick? && op.now - s.stateStart >= c.maxRoundTrainTime)
      || (SelectionFor(c, Current(s)).Ok? &&
          StoredIndices(Current(t).witnesses) == Witnesses(SelectionFor(c, Current(s)).value, c.sha256))
    case RoundWitness => op.Tick? && op.now - s.stateStart >= c.roundWitnessTime
    case Cooldown => op.Tick? && op.now - s.stateStart >= c.cooldownTime
    case _ => true
  }

  lemma LeavesInTime(c: Config, s: State, op: Op)
    requires ConfigOk(c) && Inv(c, s) && IsActive(s.runState) && After(c, s, op).runState != s.runState
    ensures LeftInTime(c, s, op, After(c, s, op))
  {
    if op.Tick? {
      TickLeavesIff(c, s, op.pending, op.now, op.seed);
      TickIs(c, s, op);
    } else {
      OnlyTicksAdvance(c, s, op);
      if op.SendWitness? {
        ReportSetsClock(c, s, op);
      } else {
        NoOtherLeaves(c, s, op);
      }
    }
  }

  lemma NoOtherLeaves(c: Config, s: State, op: Op)
    requires !op.Tick? && !op.SendWitness? && IsActive(s.runState)
    ensures After(c, s, op).runState == s.runState
  {
  }

  // In every run: training lasts its time unless every elected witness has reported before, witnessing and cooldown
  // always last theirs.
  lemma StatesLast(c: Config, xs: seq<Traced>, ops: seq<Op>, i: nat, k: nat)
    requires ConfigOk(c) && IsRun(c, xs, ops) && FromInit(c, xs[0]) && i < k < |ops| && LastsFrom(xs, i, k)
    requires IsActive(xs[k].s.runState) && xs[k + 1].s.runState != xs[k].s.runState
    ensures HasClock(ops[i])
    ensures xs[k].s.runState == RoundTrain ==>
      || (ops[k].Tick? && ops[k].now - ops[i].now >= c.maxRoundTrainTime)
      || (SelectionFor(c, Current(xs[k].s)).Ok? &&
          StoredIndices(Current(xs[k + 1].s).witnesses) == Witnesses(SelectionFor(c, Current(xs[k].s)).value, c.sha256))
    ensures xs[k].s.runState == RoundWitness ==> ops[k].Tick? && ops[k].now - ops[i].now >= c.roundWitnessTime
    ensures xs[k].s.runState == Cooldown ==> ops[k].Tick? && ops[k].now - ops[i].now >= c.cooldownTime
  {
    RunClockSince(c, xs, ops, i, k);
    RunKeepsTracedInv(c, xs, ops, k);
    RunNext(c, xs, ops, k);
    LeavesInTime(c, xs[k].s, ops[k]);
  }
}
