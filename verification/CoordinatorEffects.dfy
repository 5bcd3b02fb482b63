/** What one operation may do to the client lists, the ring and the step count, in a form that
    forgets which operation it was. The history of a run is proved from these relations alone. */
module CoordinatorEffects {
  import opened Wrappers
  import opened CoordinatorSpec
  import opened CoordinatorInvariants
  import opened CoordinatorSteps
  import opened CoordinatorHealth
  import opened ClientOrder

  // ------------------------------------------------------------------ operations

  datatype Op =
    | Tick(pending: Option<seq<NodeIdentity>>, now: nat, seed: nat)
    | WarmupWitness(from: NodeIdentity, w: Witness, now: nat, seed: nat)
    | SendWitness(from: NodeIdentity, w: Witness, now: nat)
    | HealthCheck(checks: HealthChecks)
    | Withdraw(index: nat)
    | Eject(index: nat)
    | Pause(now: nat)
    | Resume(now: nat)

  datatype Reply =
    | TickReply(tick: Result<TickResult, CoordinatorError>)
    | UnitReply(unit: Result<(), CoordinatorError>)
    | CountReply(count: Result<nat, CoordinatorError>)

  // Pending clients have distinct identities; nothing else is asked of the callers.
  ghost predicate OpOk(op: Op)
  {
    op.Tick? && op.pending.Some? ==>
      forall i, j :: 0 <= i < j < |op.pending.value| ==> op.pending.value[i] != op.pending.value[j]
  }

  function Apply(c: Config, s: State, op: Op): (o: Outcome<(State, Reply)>)
  {
    match op
    case Tick(pending, now, seed) =>
      var (t, r) :- TickStep(c, s, pending, now, seed); Done((t, TickReply(r)))
    case WarmupWitness(from, w, now, seed) =>
      var (t, r) :- WarmupWitnessStep(c, s, from, w, now, seed); Done((t, UnitReply(r)))
    case SendWitness(from, w, now) =>
      var (t, r) :- WitnessStep(c, s, from, w, now); Done((t, UnitReply(r)))
    case HealthCheck(checks) =>
      var (t, r) :- HealthCheckStep(c, s, checks); Done((t, CountReply(r)))
    case Withdraw(index) => var (t, r) := WithdrawStep(s, index); Done((t, UnitReply(r)))
    case Eject(index) => var (t, r) := EjectStep(s, index); Done((t, UnitReply(r)))
    case Pause(now) => var (t, r) :- PauseStep(s, now); Done((t, UnitReply(r)))
    case Resume(now) => var (t, r) :- ResumeStep(c, s, now); Done((t, UnitReply(r)))
  }

  // An operation that panics is aborted and leaves the state as it was.
  function After(c: Config, s: State, op: Op): (t: State)
  {
    match Apply(c, s, op)
    case Panic => s
    case Done((t, _)) => t
  }

  // The one abort: a warmup witness whose duplicate scan meets a stale index.
  ghost predicate Aborts(s: State, op: Op)
  {
    && op.WarmupWitness? && s.runState == Warmup && VerifyClient(op.from, op.w.proof.index, s.clients)
    && StaleBeforeMatch(s.clients, Current(s).witnesses, op.from)
  }

  lemma TickOpKeepsInv(c: Config, s: State, op: Op)
    requires ConfigOk(c) && Inv(c, s) && OpOk(op) && op.Tick?
    ensures Apply(c, s, op).Done? && Inv(c, After(c, s, op))
  {
    TickKeepsInvIff(c, s, op.pending, op.now, op.seed);
  }

  lemma WarmupWitnessOpKeepsInv(c: Config, s: State, op: Op)
    requires ConfigOk(c) && Inv(c, s) && op.WarmupWitness?
    ensures Inv(c, After(c, s, op)) && (Apply(c, s, op).Panic? <==> Aborts(s, op))
  {
    WarmupWitnessPanicsIff(c, s, op.from, op.w, op.now, op.seed);
    if WarmupWitnessStep(c, s, op.from, op.w, op.now, op.seed).Done? {
      WarmupWitnessKeepsInv(c, s, op.from, op.w, op.now, op.seed);
    }
  }

  lemma WitnessOpKeepsInv(c: Config, s: State, op: Op)
    requires ConfigOk(c) && Inv(c, s) && op.SendWitness?
    ensures Apply(c, s, op).Done? && Inv(c, After(c, s, op))
  {
    WitnessKeepsInv(c, s, op.from, op.w, op.now);
  }

  lemma HealthCheckOpKeepsInv(c: Config, s: State, op: Op)
    requires ConfigOk(c) && Inv(c, s) && op.HealthCheck?
    ensures Apply(c, s, op).Done? && Inv(c, After(c, s, op))
  {
    HealthCheckKeepsInv(c, s, op.checks);
  }

  lemma WithdrawOpKeepsInv(c: Config, s: State, op: Op)
    requires Inv(c, s) && op.Withdraw?
    ensures Apply(c, s, op).Done? && Inv(c, After(c, s, op))
  {
    WithdrawKeepsInv(c, s, op.index);
  }

  lemma EjectOpKeepsInv(c: Config, s: State, op: Op)
    requires Inv(c, s) && op.Eject?
    ensures Apply(c, s, op).Done? && Inv(c, After(c, s, op))
  {
    EjectKeepsInv(c, s, op.index);
  }

  lemma PauseOpKeepsInv(c: Config, s: State, op: Op)
    requires Inv(c, s) && op.Pause?
    ensures Apply(c, s, op).Done? && Inv(c, After(c, s, op))
  {
    PauseKeepsInv(c, s, op.now);
  }

  lemma ResumeOpKeepsInv(c: Config, s: State, op: Op)
    requires Inv(c, s) && op.Resume?
    ensures Apply(c, s, op).Done? && Inv(c, After(c, s, op))
  {
    ResumeKeepsInv(c, s, op.now);
  }

  // No operation panics, except a warmup witness on a stale index.
  lemma StepKeepsInv(c: Config, s: State, op: Op)
    requires ConfigOk(c) && Inv(c, s) && OpOk(op)
    ensures Inv(c, After(c, s, op))
    ensures Apply(c, s, op).Panic? <==> Aborts(s, op)
  {
    match op
    case Tick(_, _, _) => TickOpKeepsInv(c, s, op);
    case WarmupWitness(_, _, _, _) => WarmupWitnessOpKeepsInv(c, s, op);
    case SendWitness(_, _, _) => WitnessOpKeepsInv(c, s, op);
    case HealthCheck(_) => HealthCheckOpKeepsInv(c, s, op);
    case Withdraw(_) => WithdrawOpKeepsInv(c, s, op);
    case Eject(_) => EjectOpKeepsInv(c, s, op);
    case Pause(_) => PauseOpKeepsInv(c, s, op);
    case Resume(_) => ResumeOpKeepsInv(c, s, op);
  }

  // ------------------------------------------------------------------ relations

  ghost function EjectedIds(clients: seq<Client>): (r: set<NodeIdentity>)
  {
    set x | x in clients && x.state == Ejected :: x.id
  }

  ghost function AllEjected(s: State): (r: set<NodeIdentity>)
  {
    EjectedIds(s.clients) + EjectedIds(s.exited)
  }

  // Clients only move, in their order, from the live list to the end of the exit list.
  ghost predicate Moves(clients: seq<Client>, exited: seq<Client>, clients': seq<Client>, exited': seq<Client>)
  {
    && |clients'| + |exited'| == |clients| + |exited|
    && exited <= exited'
    && Splits(Ids(clients), Ids(clients'), Ids(exited'[|exited|..]))
  }

  // Nobody is lost on the way, and convictions stand.
  ghost predicate ListsShrink(clients: seq<Client>, exited: seq<Client>, clients': seq<Client>, exited': seq<Client>)
  {
    && Moves(clients, exited, clients', exited')
    && multiset(Ids(clients')) + multiset(Ids(exited'[|exited|..])) == multiset(Ids(clients))
    && EjectedIds(clients) + EjectedIds(exited) <= EjectedIds(clients') + EjectedIds(exited')
  }

  ghost predicate Shrinks(s: State, t: State)
  {
    ListsShrink(s.clients, s.exited, t.clients, t.exited)
  }

  predicate EntersWarmup(s: State, t: State) { s.runState == WaitingForMembers && t.runState == Warmup }

  predicate StartsRound(s: State, t: State) { s.runState != RoundTrain && t.runState == RoundTrain }

  // The same round, but for the witnesses that reported.
  predicate SameRound(r: Round, r': Round) { r.(witnesses := []) == r'.(witnesses := []) }

  // The stored rounds stay as they are.
  ghost predicate SameRounds(s: State, t: State)
  {
    forall back: nat :: back < NUM_STORED_ROUNDS ==> SameRound(RoundBack(s, back), RoundBack(t, back))
  }

  // One more round, started with the clients that are left.
  ghost predicate OneMoreRound(s: State, t: State)
  {
    && Current(t).height == (if Started(s) then Current(s).height + 1 else 0)
    && Current(t).clientsLen == |t.clients|
    && forall back: nat :: 0 < back < NUM_STORED_ROUNDS && Started(s) ==>
         SameRound(RoundBack(s, back - 1), RoundBack(t, back))
  }

  // A round in progress keeps its clients in their places.
  ghost predicate KeepsPlaces(s: State, t: State)
  {
    InRound(t.runState) && !StartsRound(s, t) ==> InRound(s.runState) && Ids(t.clients) == Ids(s.clients)
  }

  // How many rounds of the run have been started.
  function RoundsSoFar(s: State): (n: int) { s.step - 1 + if InRound(s.runState) then 1 else 0 }

  ghost predicate StepEffect(s: State, t: State)
  {
    if EntersWarmup(s, t) then
      t.exited == [] && AllEjected(t) == {} && !Started(t) && RoundsSoFar(t) == RoundsSoFar(s)
    else
      && Shrinks(s, t)
      && (if StartsRound(s, t) then OneMoreRound(s, t) else SameRounds(s, t))
      && RoundsSoFar(t) == RoundsSoFar(s) + (if StartsRound(s, t) then 1 else 0)
      && KeepsPlaces(s, t)
  }

  // ------------------------------------------------------------------ client lists

  // Same clients in the same places; an ejected one stays ejected.
  ghost predicate Relabels(before: seq<Client>, after: seq<Client>)
  {
    && |after| == |before|
    && forall i :: 0 <= i < |before| ==>
         after[i].id == before[i].id && (before[i].state == Ejected ==> after[i].state == Ejected)
  }

  lemma RelabelEjected(before: seq<Client>, after: seq<Client>)
    requires Relabels(before, after)
    ensures EjectedIds(before) <= EjectedIds(after) && Ids(after) == Ids(before)
  {
    forall id | id in EjectedIds(before)
      ensures id in EjectedIds(after)
    {
      var x :| x in before && x.state == Ejected && x.id == id;
      var i :| 0 <= i < |before| && before[i] == x;
      assert after[i] in after;
    }
  }

  lemma RelabelShrinks(s: State, u: State, t: State)
    requires Shrinks(s, u) && t.exited == u.exited && Relabels(u.clients, t.clients)
    ensures Shrinks(s, t)
  {
    RelabelEjected(u.clients, t.clients);
  }

  lemma ShrinksReflexive(s: State)
    ensures Shrinks(s, s)
  {
    assert s.exited[|s.exited|..] == [];
    OutsideNobody(Ids(s.clients));
  }

  lemma MoveShrinks(s: State, height: nat, t: State)
    requires |s.clients| + |s.exited| <= SOLANA_MAX_NUM_CLIENTS && NoRepeats(Roster(s))
    requires t.clients == Kept(s.clients) && t.exited == s.exited + Leaving(s.clients, height)
    ensures Shrinks(s, t)
    ensures EjectedIds(t.clients) == {}
    ensures forall x :: x in t.clients ==> x.state == Healthy
  {
    MoveKeepsIds(s.clients, height);
    LiveIdsAreDistinct(s);
    MoveSplits(s.clients, height);
    assert t.exited[|s.exited|..] == Leaving(s.clients, height);
    KeptAreHealthy(s.clients);
    MoveKeepsConvictions(s.clients, s.exited, height);
  }

  lemma MoveKeepsConvictions(clients: seq<Client>, exited: seq<Client>, height: nat)
    ensures EjectedIds(clients) + EjectedIds(exited) <= EjectedIds(exited + Leaving(clients, height))
  {
    var after := exited + Leaving(clients, height);
    LeavingAreUnhealthy(clients, height);
    forall id | id in EjectedIds(clients) + EjectedIds(exited)
      ensures id in EjectedIds(after)
    {
      if x :| x in clients && x.state == Ejected && x.id == id {
        assert x.(exitedHeight := height) in after;
      } else {
        var x :| x in exited && x.state == Ejected && x.id == id;
        assert x in after;
      }
    }
  }

  lemma WithdrawAllRelabels(clients: seq<Client>)
    ensures Relabels(clients, WithdrawnClients(clients))
  {
    WithdrawKeepsIds(clients);
  }

  // ------------------------------------------------------------------ each operation's effect

  // Neither the phase of the round nor the ring's shape changes.
  ghost predicate Quiet(s: State, t: State)
  {
    && t.exited == s.exited && Relabels(s.clients, t.clients) && t.step == s.step
    && !EntersWarmup(s, t) && !StartsRound(s, t) && (InRound(s.runState) <==> InRound(t.runState))
  }

  lemma QuietEffect(s: State, t: State)
    requires Quiet(s, t) && t.rounds == s.rounds && t.roundsHead == s.roundsHead
    ensures StepEffect(s, t)
  {
    ShrinksReflexive(s);
    RelabelShrinks(s, s, t);
  }

  lemma PushEffect(s: State, t: State, w: Witness)
    requires Quiet(s, t) && t.rounds == PushWitness(s, w).rounds && t.roundsHead == s.roundsHead
    ensures StepEffect(s, t)
  {
    ShrinksReflexive(s);
    RelabelShrinks(s, s, t);
  }

  lemma TickWaitingEffect(c: Config, s: State, pending: Option<seq<NodeIdentity>>, now: nat)
    requires Inv(c, s) && s.runState == WaitingForMembers
    ensures TickWaiting(c, s, pending, now).Done? && StepEffect(s, TickWaiting(c, s, pending, now).value.0)
  {
    TickWaitingCases(c, s, pending, now);
    var t := TickWaiting(c, s, pending, now).value.0;
    if t == s {
      QuietEffect(s, t);
    } else {
      assert forall x :: x in t.clients ==> x.state == Healthy;
      assert AllEjected(t) == {};
    }
  }

  lemma OpenFirstEffect(c: Config, s: State, now: nat, seed: nat)
    requires Inv(c, s) && s.runState == Warmup
    ensures StartRoundTrain(c, s, now, seed, 0).Done? && StepEffect(s, StartRoundTrain(c, s, now, seed, 0).value)
  {
    ShrinksReflexive(s);
  }

  lemma TickWarmupEffect(c: Config, s: State, now: nat, seed: nat)
    requires ConfigOk(c) && Inv(c, s) && s.runState == Warmup
    ensures TickWarmup(c, s, now, seed).Done? && StepEffect(s, TickWarmup(c, s, now, seed).value.0)
  {
    TickWarmupKeepsInv(c, s, now, seed);
    if TimedOut(s, now, c.warmupTime) {
      OpenFirstEffect(c, s, now, seed);
    } else {
      MoveFits(s, 0);
      MoveShrinks(s, 0, TickWarmup(c, s, now, seed).value.0);
    }
  }

  lemma CoolDownEffect(s: State, u: State, now: nat)
    requires s.runState == RoundWitness && u.runState == RoundWitness && Shrinks(s, u)
    requires u.rounds == s.rounds && u.roundsHead == s.roundsHead && u.step == s.step + 1
    ensures StartCooldown(u, now).Done? && StepEffect(s, StartCooldown(u, now).value)
  {
  }

  lemma OpenNextEffect(c: Config, s: State, u: State, now: nat, seed: nat)
    requires s.runState == RoundWitness && u.runState == RoundWitness && Shrinks(s, u)
    requires Started(s) && !u.firstRound
    requires u.rounds == s.rounds && u.roundsHead == s.roundsHead && u.step == s.step + 1
    ensures StartRoundTrain(c, u, now, seed, 0).Done? && StepEffect(s, StartRoundTrain(c, u, now, seed, 0).value)
  {
    var t := StartRoundTrain(c, u, now, seed, 0).value;
    forall back: nat | 0 < back < NUM_STORED_ROUNDS
      ensures SameRound(RoundBack(s, back - 1), RoundBack(t, back))
    {
    }
  }

  lemma CloseRoundShrinks(c: Config, s: State)
    requires Inv(c, s) && s.runState == RoundWitness
    ensures CloseRound(s).Done?
    ensures var u := CloseRound(s).value;
      && u == s.(firstRound := false, step := s.step + 1, clients := u.clients, exited := u.exited)
      && Shrinks(s, u) && Shrinks(s, WithdrawAll(u))
  {
    var s0 := s.(firstRound := false, step := s.step + 1);
    MoveFits(s0, Current(s).height);
    var u := CloseRound(s).value;
    MoveShrinks(s, Current(s).height, u);
    WithdrawAllRelabels(u.clients);
    RelabelShrinks(s, u, WithdrawAll(u));
  }

  lemma LeaveWitnessedEffect(c: Config, s: State, u: State, n: nat, now: nat, seed: nat)
    requires s.runState == RoundWitness && u.runState == RoundWitness && Started(s) && !u.firstRound && n > 0
    requires u.rounds == s.rounds && u.roundsHead == s.roundsHead && u.step == s.step + 1 && Shrinks(s, u)
    ensures LeaveRound(c, u, n, now, seed).Done? && StepEffect(s, LeaveRound(c, u, n, now, seed).value)
  {
    var u2 := NoticeDeadline(c, u, now);
    if (u2.lastStep != 0 && u2.step == u2.lastStep) || MustCoolDown(c, u2, n, WitnessQuorum(c, n).value) {
      CoolDownEffect(s, u2, now);
    } else {
      OpenNextEffect(c, s, u2, now, seed);
    }
  }

  lemma LeaveRoundEffect(c: Config, s: State, u: State, now: nat, seed: nat)
    requires s.runState == RoundWitness && Started(s)
    requires u == s.(firstRound := false, step := s.step + 1, clients := u.clients, exited := u.exited)
    requires Shrinks(s, u) && Shrinks(s, WithdrawAll(u))
    ensures LeaveRound(c, u, |Current(s).witnesses|, now, seed).Done?
    ensures StepEffect(s, LeaveRound(c, u, |Current(s).witnesses|, now, seed).value)
  {
    if Current(s).witnesses == [] {
      CoolDownEffect(s, WithdrawAll(u), now);
    } else {
      LeaveWitnessedEffect(c, s, u, |Current(s).witnesses|, now, seed);
    }
  }

  lemma TickRoundWitnessEffect(c: Config, s: State, now: nat, seed: nat)
    requires ConfigOk(c) && Inv(c, s) && s.runState == RoundWitness
    ensures TickRoundWitness(c, s, now, seed).Done? && StepEffect(s, TickRoundWitness(c, s, now, seed).value.0)
  {
    if !TimedOut(s, now, c.roundWitnessTime) {
      QuietEffect(s, s);
    } else {
      CloseRoundShrinks(c, s);
      LeaveRoundEffect(c, s, CloseRound(s).value, now, seed);
    }
  }

  // Out of the cooldown with the ring as it was.
  lemma CooledEffect(s: State, u: State, t: State)
    requires s.runState == Cooldown && !IsActive(t.runState) && t.runState != Warmup && Shrinks(s, u)
    requires t.clients == u.clients && t.exited == u.exited
    requires t.rounds == s.rounds && t.roundsHead == s.roundsHead && t.step == s.step
    ensures StepEffect(s, t)
  {
  }

  lemma LeaveEpochIs(c: Config, u: State, now: nat)
    requires u.runState == Cooldown
    ensures LeaveEpoch(c, u, now).Done?
    ensures var t := LeaveEpoch(c, u, now).value;
      && !IsActive(t.runState) && t.runState != Warmup
      && t.clients == (if u.pendingPause then WithdrawAll(u) else u).clients && t.exited == u.exited
      && t.rounds == u.rounds && t.roundsHead == u.roundsHead && t.step == u.step
  {
  }

  lemma LeaveEpochEffect(c: Config, s: State, u: State, now: nat)
    requires s.runState == Cooldown && u.runState == Cooldown
    requires u.rounds == s.rounds && u.roundsHead == s.roundsHead && u.step == s.step
    requires Shrinks(s, u) && Shrinks(s, WithdrawAll(u))
    ensures LeaveEpoch(c, u, now).Done? && StepEffect(s, LeaveEpoch(c, u, now).value)
  {
    LeaveEpochIs(c, u, now);
    CooledEffect(s, if u.pendingPause then WithdrawAll(u) else u, LeaveEpoch(c, u, now).value);
  }

  lemma SettleShrinks(c: Config, s: State)
    requires |s.clients| + |s.exited| <= SOLANA_MAX_NUM_CLIENTS && NoRepeats(Roster(s))
    ensures SettleEpoch(c, s).Done?
    ensures var u := SettleEpoch(c, s).value;
      && u.rounds == s.rounds && u.roundsHead == s.roundsHead && u.step == s.step && u.runState == s.runState
      && u.pendingPause == s.pendingPause
      && Shrinks(s, u) && Shrinks(s, WithdrawAll(u))
      && (forall x :: x in u.clients ==> x.state == Healthy)
  {
    var last := Current(s);
    MoveFits(s.(epochStartDataIndex := last.dataIndex + BatchAt(c, last.dataIndex), epoch := s.epoch + 1), last.height);
    var u := SettleEpoch(c, s).value;
    MoveShrinks(s, last.height, u);
    WithdrawAllRelabels(u.clients);
    RelabelShrinks(s, u, WithdrawAll(u));
  }

  lemma TickCooldownEffect(c: Config, s: State, now: nat)
    requires Inv(c, s) && s.runState == Cooldown
    ensures TickCooldown(c, s, now).Done? && StepEffect(s, TickCooldown(c, s, now).value.0)
  {
    if TimedOut(s, now, c.cooldownTime) {
      SettleShrinks(c, s);
      LeaveEpochEffect(c, s, SettleEpoch(c, s).value, now);
    } else {
      QuietEffect(s, s);
    }
  }

  lemma TickRoundTrainEffect(c: Config, s: State, now: nat)
    requires s.runState == RoundTrain
    ensures TickRoundTrain(c, s, now).Done? && StepEffect(s, TickRoundTrain(c, s, now).value.0)
  {
    QuietEffect(s, TickRoundTrain(c, s, now).value.0);
  }

  lemma TickEffect(c: Config, s: State, pending: Option<seq<NodeIdentity>>, now: nat, seed: nat)
    requires ConfigOk(c) && Inv(c, s)
    ensures TickStep(c, s, pending, now, seed).Done? && StepEffect(s, TickStep(c, s, pending, now, seed).value.0)
  {
    match s.runState
    case WaitingForMembers =>
      TickWaitingEffect(c, s, pending, now);
      WaitingTickIs(c, s, pending, now, seed);
    case Warmup =>
      TickWarmupEffect(c, s, now, seed);
      WarmupTickIs(c, s, pending, now, seed);
    case RoundTrain =>
      TickRoundTrainEffect(c, s, now);
      TrainTickIs(c, s, pending, now, seed);
    case RoundWitness =>
      TickRoundWitnessEffect(c, s, now, seed);
      WitnessTickIs(c, s, pending, now, seed);
    case Cooldown =>
      TickCooldownEffect(c, s, now);
      CooldownTickIs(c, s, pending, now, seed);
    case _ => QuietEffect(s, s);
  }

  // The first round starts over the reports of the warmup.
  lemma FirstRoundEffect(c: Config, s: State, w: Witness, now: nat, seed: nat)
    requires Inv(c, s) && s.runState == Warmup
    ensures var o := StartRoundTrain(c, PushWitness(s, w), now, seed, 0); o.Done? && StepEffect(s, o.value)
  {
    ShrinksReflexive(s);
  }

  lemma WarmupWitnessIs(c: Config, s: State, from: NodeIdentity, w: Witness, now: nat, seed: nat)
    requires WarmupWitnessStep(c, s, from, w, now, seed).Done?
    ensures var t := WarmupWitnessStep(c, s, from, w, now, seed).value.0;
      || t == s
      || (s.runState == Warmup && t == PushWitness(s, w))
      || (s.runState == Warmup && Done(t) == StartRoundTrain(c, PushWitness(s, w), now, seed, 0))
  {
  }

  lemma WarmupWitnessEffect(c: Config, s: State, from: NodeIdentity, w: Witness, now: nat, seed: nat)
    requires Inv(c, s) && WarmupWitnessStep(c, s, from, w, now, seed).Done?
    ensures StepEffect(s, WarmupWitnessStep(c, s, from, w, now, seed).value.0)
  {
    WarmupWitnessIs(c, s, from, w, now, seed);
    var t := WarmupWitnessStep(c, s, from, w, now, seed).value.0;
    if t == s {
      QuietEffect(s, s);
    } else if t == PushWitness(s, w) {
      PushEffect(s, t, w);
    } else {
      FirstRoundEffect(c, s, w, now, seed);
    }
  }

  lemma WitnessEffect(c: Config, s: State, from: NodeIdentity, w: Witness, now: nat)
    requires WitnessStep(c, s, from, w, now).Done?
    ensures StepEffect(s, WitnessStep(c, s, from, w, now).value.0)
  {
    var t := WitnessStep(c, s, from, w, now).value.0;
    if t == s {
      QuietEffect(s, s);
    } else {
      PushEffect(s, t, w);
    }
  }

  lemma HealthCheckEffect(c: Config, s: State, checks: HealthChecks)
    requires ConfigOk(c) && Inv(c, s)
    ensures HealthCheckStep(c, s, checks).Done? && StepEffect(s, HealthCheckStep(c, s, checks).value.0)
  {
    if !IsHalted(s.runState) {
      HealthCheckIsAllOrNothing(c, s, checks);
    }
    QuietEffect(s, HealthCheckStep(c, s, checks).value.0);
  }

  lemma WithdrawEffect(s: State, index: nat)
    ensures StepEffect(s, WithdrawStep(s, index).0)
  {
    QuietEffect(s, WithdrawStep(s, index).0);
  }

  lemma EjectEffect(s: State, index: nat)
    ensures StepEffect(s, EjectStep(s, index).0)
  {
    QuietEffect(s, EjectStep(s, index).0);
  }

  lemma PauseIs(s: State, now: nat)
    ensures PauseStep(s, now).Done?
    ensures var t := PauseStep(s, now).value.0;
      || (IsHalted(s.runState) && t == s)
      || (IsActive(s.runState) && t == s.(pendingPause := true))
      || (!IsActive(s.runState) && t == WithdrawAll(s).(runState := Paused, stateStart := now, coldStart := true))
  {
  }

  lemma PausedEffect(s: State, now: nat)
    requires !IsActive(s.runState)
    ensures StepEffect(s, WithdrawAll(s).(runState := Paused, stateStart := now, coldStart := true))
  {
    WithdrawAllRelabels(s.clients);
    QuietEffect(s, WithdrawAll(s).(runState := Paused, stateStart := now, coldStart := true));
  }

  lemma PauseEffect(s: State, now: nat)
    ensures PauseStep(s, now).Done? && StepEffect(s, PauseStep(s, now).value.0)
  {
    PauseIs(s, now);
    var t := PauseStep(s, now).value.0;
    if t == s || t == s.(pendingPause := true) {
      QuietEffect(s, t);
    } else {
      PausedEffect(s, now);
    }
  }

  lemma ResumeEffect(c: Config, s: State, now: nat)
    ensures ResumeStep(c, s, now).Done? && StepEffect(s, ResumeStep(c, s, now).value.0)
  {
    QuietEffect(s, ResumeStep(c, s, now).value.0);
  }

  lemma SameEffect(s: State, t: State, u: State)
    requires StepEffect(s, t) && u == t
    ensures StepEffect(s, u)
  {
  }

  // What each operation leaves is what its step gives.
  lemma TickIs(c: Config, s: State, op: Op)
    requires op.Tick? && TickStep(c, s, op.pending, op.now, op.seed).Done?
    ensures After(c, s, op) == TickStep(c, s, op.pending, op.now, op.seed).value.0
  {
  }

  lemma WitnessIs(c: Config, s: State, op: Op)
    requires op.SendWitness? && WitnessStep(c, s, op.from, op.w, op.now).Done?
    ensures After(c, s, op) == WitnessStep(c, s, op.from, op.w, op.now).value.0
  {
  }

  lemma WithdrawIs(c: Config, s: State, op: Op)
    requires op.Withdraw?
    ensures After(c, s, op) == WithdrawStep(s, op.index).0
  {
  }

  lemma EjectIs(c: Config, s: State, op: Op)
    requires op.Eject?
    ensures After(c, s, op) == EjectStep(s, op.index).0
  {
  }

  lemma HealthCheckIs(c: Config, s: State, op: Op)
    requires op.HealthCheck? && HealthCheckStep(c, s, op.checks).Done?
    ensures After(c, s, op) == HealthCheckStep(c, s, op.checks).value.0
  {
  }

  lemma PauseOpIs(c: Config, s: State, op: Op)
    requires op.Pause? && PauseStep(s, op.now).Done?
    ensures After(c, s, op) == PauseStep(s, op.now).value.0
  {
  }

  lemma ResumeOpIs(c: Config, s: State, op: Op)
    requires op.Resume? && ResumeStep(c, s, op.now).Done?
    ensures After(c, s, op) == ResumeStep(c, s, op.now).value.0
  {
  }

  lemma TickOpEffect(c: Config, s: State, op: Op)
    requires ConfigOk(c) && Inv(c, s) && op.Tick?
    ensures StepEffect(s, After(c, s, op))
  {
    TickEffect(c, s, op.pending, op.now, op.seed);
    TickIs(c, s, op);
    SameEffect(s, TickStep(c, s, op.pending, op.now, op.seed).value.0, After(c, s, op));
  }

  lemma WarmupWitnessOpEffect(c: Config, s: State, op: Op)
    requires Inv(c, s) && op.WarmupWitness?
    ensures StepEffect(s, After(c, s, op))
  {
    var o := WarmupWitnessStep(c, s, op.from, op.w, op.now, op.seed);
    if o.Panic? {
      QuietEffect(s, s);
      SameEffect(s, s, After(c, s, op));
    } else {
      WarmupWitnessEffect(c, s, op.from, op.w, op.now, op.seed);
      SameEffect(s, o.value.0, After(c, s, op));
    }
  }

  lemma WitnessOpEffect(c: Config, s: State, op: Op)
    requires ConfigOk(c) && Inv(c, s) && op.SendWitness?
    ensures StepEffect(s, After(c, s, op))
  {
    WitnessOpKeepsInv(c, s, op);
    WitnessEffect(c, s, op.from, op.w, op.now);
    SameEffect(s, WitnessStep(c, s, op.from, op.w, op.now).value.0, After(c, s, op));
  }

  lemma HealthCheckOpEffect(c: Config, s: State, op: Op)
    requires ConfigOk(c) && Inv(c, s) && op.HealthCheck?
    ensures StepEffect(s, After(c, s, op))
  {
    HealthCheckEffect(c, s, op.checks);
    HealthCheckIs(c, s, op);
    SameEffect(s, HealthCheckStep(c, s, op.checks).value.0, After(c, s, op));
  }

  lemma WithdrawOpEffect(c: Config, s: State, op: Op)
    requires op.Withdraw?
    ensures StepEffect(s, After(c, s, op))
  {
    WithdrawEffect(s, op.index);
    WithdrawIs(c, s, op);
    SameEffect(s, WithdrawStep(s, op.index).0, After(c, s, op));
  }

  lemma EjectOpEffect(c: Config, s: State, op: Op)
    requires op.Eject?
    ensures StepEffect(s, After(c, s, op))
  {
    EjectEffect(s, op.index);
    EjectIs(c, s, op);
    SameEffect(s, EjectStep(s, op.index).0, After(c, s, op));
  }

  lemma PauseOpEffect(c: Config, s: State, op: Op)
    requires op.Pause?
    ensures StepEffect(s, After(c, s, op))
  {
    PauseEffect(s, op.now);
    PauseOpIs(c, s, op);
    SameEffect(s, PauseStep(s, op.now).value.0, After(c, s, op));
  }

  lemma ResumeOpEffect(c: Config, s: State, op: Op)
    requires op.Resume?
    ensures StepEffect(s, After(c, s, op))
  {
    ResumeEffect(c, s, op.now);
    ResumeOpIs(c, s, op);
    SameEffect(s, ResumeStep(c, s, op.now).value.0, After(c, s, op));
  }

  // Every operation has one of the few effects above.
  lemma StepHasEffect(c: Config, s: State, op: Op)
    requires ConfigOk(c) && Inv(c, s)
    ensures StepEffect(s, After(c, s, op))
  {
    match op
    case Tick(_, _, _) => TickOpEffect(c, s, op);
    case WarmupWitness(_, _, _, _) => WarmupWitnessOpEffect(c, s, op);
    case SendWitness(_, _, _) => WitnessOpEffect(c, s, op);
    case HealthCheck(_) => HealthCheckOpEffect(c, s, op);
    case Withdraw(_) => WithdrawOpEffect(c, s, op);
    case Eject(_) => EjectOpEffect(c, s, op);
    case Pause(_) => PauseOpEffect(c, s, op);
    case Resume(_) => ResumeOpEffect(c, s, op);
  }
}
