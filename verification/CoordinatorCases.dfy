/** What each operation does, told by the clock, the counts and the lists: when it moves the run, where to, and what
    it answers. */
module CoordinatorCases {
  import opened Wrappers
  import opened CommitteeDraw
  import opened CoordinatorSpec
  import opened CoordinatorInvariants
  import opened CoordinatorSteps

  // ------------------------------------------------------------------ the clock

  // So much time has passed since then, and it is not the same instant.
  predicate Passed(since: nat, now: nat, time: nat) { now != since && now - since >= time }

  // The first round, over whatever the ring held.
  function FirstStarted(s: State, now: nat, seed: nat): (t: State)
  {
    s.(runState := RoundTrain, stateStart := now, roundsHead := 0,
       rounds := s.rounds[0 := Round([], s.epochStartDataIndex, seed, 0, |s.clients|, 0)])
  }

  // Those who are not healthy are gone, in their order and with the height at which they left.
  function Compacted(s: State, height: nat): (t: State)
  {
    s.(clients := Kept(s.clients), exited := s.exited + Leaving(s.clients, height))
  }

  lemma Compacts(s: State, height: nat)
    requires |s.clients| + |s.exited| <= SOLANA_MAX_NUM_CLIENTS
    ensures MoveClientsToExited(s, height) == Done(Compacted(s, height))
  {
    MoveFits(s, height);
  }

  // In warmup a tick past the time starts the first round with the seed it brings. Before that it lets the leavers
  // go, and gives the epoch up exactly when fewer than the minimum stay.
  lemma WarmupTickCases(c: Config, s: State, pending: Option<seq<NodeIdentity>>, now: nat, seed: nat)
    requires ConfigOk(c) && Inv(c, s) && s.runState == Warmup
    ensures TickStep(c, s, pending, now, seed) ==
      if Passed(s.stateStart, now, c.warmupTime) then Done((FirstStarted(s, now, seed), Ok(Ticked)))
      else if |Kept(s.clients)| >= c.minClients then Done((Compacted(s, 0), Ok(Ticked)))
      else Done((Compacted(s, 0).(runState := WaitingForMembers, stateStart := now), Ok(EpochEnd(false))))
  {
    TickWarmupKeepsInv(c, s, now, seed);
    Compacts(s, 0);
    WarmupTickIs(c, s, pending, now, seed);
  }

  // A round trains until a tick finds its time over; nothing else changes.
  lemma TrainTickCases(c: Config, s: State, pending: Option<seq<NodeIdentity>>, now: nat, seed: nat)
    requires s.runState == RoundTrain
    ensures TickStep(c, s, pending, now, seed) ==
      Done((if Passed(s.stateStart, now, c.maxRoundTrainTime) then s.(runState := RoundWitness, stateStart := now) else s,
            Ok(Ticked)))
  {
    TrainTickIs(c, s, pending, now, seed);
  }

  // ------------------------------------------------------------------ the quorum

  // Two thirds, rounded down, from three nodes on; one and two must be complete.
  ghost predicate IsQuorum(n: nat, q: nat)
  {
    if n <= 2 then q == n else 3 * q <= 2 * n < 3 * q + 3
  }

  lemma QuorumIsTwoThirds(c: Config, numWitnesses: nat)
    ensures var n := if c.witnessNodes == 0 then numWitnesses else c.witnessNodes;
      (WitnessQuorum(c, numWitnesses).Done? <==> n > 0) &&
      forall q: nat :: WitnessQuorum(c, numWitnesses) == Done(q) <==> n > 0 && IsQuorum(n, q)
  {
  }

  // Enough of the witnesses have reported: any of them when their number is not fixed, otherwise two thirds of it.
  predicate EnoughReports(nodes: nat, reports: nat)
  {
    && reports > 0
    && (nodes == 1 || nodes == 2 ==> reports >= nodes)
    && (nodes > 2 ==> 3 * (reports + 1) > 2 * nodes)
  }

  lemma EnoughIsQuorum(c: Config, reports: nat)
    ensures EnoughReports(c.witnessNodes, reports) <==>
      reports > 0 && WitnessQuorum(c, reports).Done? && WitnessQuorum(c, reports).value <= reports
  {
  }

  // ------------------------------------------------------------------ leaving a round

  // The last step of the epoch: two after the next once the epoch's time is found to be over.
  function LastStepAfter(c: Config, s: State, now: nat): (n: nat)
  {
    if s.lastStep == 0 && Current(s).witnesses != [] && Passed(s.epochStart, now, c.epochTime) then s.step + 3
    else s.lastStep
  }

  // Another round follows: enough stay, enough reported, steps are left in the run and in the epoch, and no pause
  // is wanted.
  predicate Continues(c: Config, s: State)
  {
    && |Kept(s.clients)| >= c.minClients && EnoughReports(c.witnessNodes, |Current(s).witnesses|)
    && s.step + 1 < c.totalSteps && s.step + 1 != s.lastStep && !s.pendingPause
  }

  // The step is counted and the leavers go.
  function RoundClosed(c: Config, s: State, now: nat): (t: State)
  {
    Compacted(s, Current(s).height).(
      step := s.step + 1, firstRound := false, lastStep := LastStepAfter(c, s, now), stateStart := now)
  }

  // The next round in the next slot, from where this one's data ends.
  function NextStarted(c: Config, s: State, now: nat, seed: nat): (t: State)
  {
    var head := if s.roundsHead == 3 then 0 else s.roundsHead + 1;
    var data := Current(s).dataIndex + BatchAt(c, Current(s).dataIndex);
    RoundClosed(c, s, now).(
      runState := RoundTrain, roundsHead := head,
      rounds := s.rounds[head := Round([], data, seed, Current(s).height + 1, |Kept(s.clients)|, 0)])
  }

  // The reports of the round are cleared; without any, everybody is withdrawn.
  function CooledDown(c: Config, s: State, now: nat): (t: State)
  {
    RoundClosed(c, s, now).(
      runState := Cooldown,
      rounds := s.rounds[s.roundsHead := Current(s).(witnesses := [])],
      clients := if Current(s).witnesses == [] then WithdrawnClients(Kept(s.clients)) else Kept(s.clients))
  }

  // The state after the books of the round are done, before it is decided where to go.
  function BooksDone(s: State): (u: State)
  {
    Compacted(s, Current(s).height).(step := s.step + 1, firstRound := false)
  }

  lemma DeadlineIs(c: Config, s: State, now: nat)
    requires s.step >= 1 && Current(s).witnesses != []
    ensures NoticeDeadline(c, BooksDone(s), now) == BooksDone(s).(lastStep := LastStepAfter(c, s, now))
  {
  }

  lemma NextIs(c: Config, s: State, u: State, now: nat, seed: nat)
    requires s.runState == RoundWitness && u == BooksDone(s).(lastStep := LastStepAfter(c, s, now))
    ensures StartRoundTrain(c, u, now, seed, 0) == Done(NextStarted(c, s, now, seed))
  {
  }

  lemma CooldownIs(c: Config, s: State, u: State, now: nat)
    requires s.runState == RoundWitness && u == BooksDone(s).(lastStep := LastStepAfter(c, s, now))
    ensures Current(s).witnesses != [] ==> StartCooldown(u, now) == Done(CooledDown(c, s, now))
    ensures Current(s).witnesses == [] ==> StartCooldown(WithdrawAll(u), now) == Done(CooledDown(c, s, now))
  {
  }

  lemma LeaveRoundIs(c: Config, s: State, now: nat, seed: nat)
    requires ConfigOk(c) && Inv(c, s) && s.runState == RoundWitness
    ensures LeaveRound(c, BooksDone(s), |Current(s).witnesses|, now, seed) ==
      Done(if Continues(c, s) then NextStarted(c, s, now, seed) else CooledDown(c, s, now))
  {
    var n, u := |Current(s).witnesses|, BooksDone(s).(lastStep := LastStepAfter(c, s, now));
    CooldownIs(c, s, u, now);
    if n > 0 {
      DeadlineIs(c, s, now);
      QuorumIsTwoThirds(c, n);
      EnoughIsQuorum(c, n);
      NextIs(c, s, u, now, seed);
      LastStepIsNear(c, s, now);
    } else {
      assert u == BooksDone(s);
    }
  }

  // A deadline noticed just now is not this step.
  lemma LastStepIsNear(c: Config, s: State, now: nat)
    ensures LastStepAfter(c, s, now) != 0 && s.step + 1 == LastStepAfter(c, s, now) <==> s.step + 1 == s.lastStep
  {
  }

  lemma BooksAre(c: Config, s: State)
    requires Inv(c, s) && s.runState == RoundWitness
    ensures CloseRound(s) == Done(BooksDone(s))
  {
    assert |s.clients| + |s.exited| <= SOLANA_MAX_NUM_CLIENTS;
    Compacts(s.(firstRound := false, step := s.step + 1), Current(s).height);
  }

  // Where a round leads that has run out of time.
  function RoundLeft(c: Config, s: State, now: nat, seed: nat): (t: State)
  {
    if Continues(c, s) then NextStarted(c, s, now, seed) else CooledDown(c, s, now)
  }

  lemma RoundTick(c: Config, s: State, u: State, t: State, now: nat, seed: nat)
    requires CloseRound(s) == Done(u) && LeaveRound(c, u, |Current(s).witnesses|, now, seed) == Done(t)
    ensures TickRoundWitness(c, s, now, seed) ==
      Done((if Passed(s.stateStart, now, c.roundWitnessTime) then t else s, Ticked))
  {
  }

  // A round closes exactly when a tick finds its time over.
  lemma WitnessTickCases(c: Config, s: State, pending: Option<seq<NodeIdentity>>, now: nat, seed: nat)
    requires ConfigOk(c) && Inv(c, s) && s.runState == RoundWitness
    ensures TickStep(c, s, pending, now, seed) ==
      Done((if Passed(s.stateStart, now, c.roundWitnessTime) then RoundLeft(c, s, now, seed) else s, Ok(Ticked)))
  {
    BooksAre(c, s);
    LeaveRoundIs(c, s, now, seed);
    RoundTick(c, s, BooksDone(s), RoundLeft(c, s, now, seed), now, seed);
    WitnessTickIs(c, s, pending, now, seed);
  }

  // ------------------------------------------------------------------ leaving an epoch

  // The epoch is counted, its data is used up, and the leavers go.
  function EpochClosed(c: Config, s: State, now: nat): (t: State)
  {
    Compacted(s, Current(s).height).(
      epoch := s.epoch + 1, epochStartDataIndex := Current(s).dataIndex + BatchAt(c, Current(s).dataIndex),
      stateStart := now, pendingPause := false)
  }

  // A wanted pause comes into force, and everybody is withdrawn; otherwise the run is finished after its last step
  // and waits for members before it.
  function EpochLeft(c: Config, s: State, now: nat): (t: State)
  {
    var u := EpochClosed(c, s, now);
    if s.pendingPause then u.(runState := Paused, coldStart := true, clients := WithdrawnClients(u.clients))
    else u.(runState := if s.step == c.totalSteps then Finished else WaitingForMembers, coldStart := false)
  }

  lemma CooldownTickCases(c: Config, s: State, pending: Option<seq<NodeIdentity>>, now: nat, seed: nat)
    requires ConfigOk(c) && Inv(c, s) && s.runState == Cooldown
    ensures TickStep(c, s, pending, now, seed) ==
      if Passed(s.stateStart, now, c.cooldownTime) then Done((EpochLeft(c, s, now), Ok(EpochEnd(true))))
      else Done((s, Ok(Ticked)))
  {
    if Passed(s.stateStart, now, c.cooldownTime) {
      Compacts(s, Current(s).height);
    }
    CooldownTickIs(c, s, pending, now, seed);
  }

  // ------------------------------------------------------------------ reports in warmup

  // Every stored report still names a client.
  predicate AllResolve(s: State)
  {
    forall k :: 0 <= k < |Current(s).witnesses| ==> Current(s).witnesses[k].proof.index < |s.clients|
  }

  // The sender is at its index and has no stored report, and there is room for one more.
  predicate WelcomesReport(s: State, from: NodeIdentity, w: Witness)
  {
    var ws := Current(s).witnesses;
    && w.proof.index < |s.clients| && s.clients[w.proof.index].id == from
    && (forall k :: 0 <= k < |ws| ==> ws[k].proof.index != w.proof.index)
    && |ws| < 32
  }

  // The number of reports that starts the first round.
  function ReportsWanted(c: Config, s: State): (n: nat)
  {
    if c.witnessNodes != 0 then c.witnessNodes else if |s.clients| <= 32 then |s.clients| else 32
  }

  function ReportRefused(s: State, from: NodeIdentity, w: Witness): (e: CoordinatorError)
  {
    if !(w.proof.index < |s.clients| && s.clients[w.proof.index].id == from) then InvalidCommitteeProof
    else if exists k :: 0 <= k < |Current(s).witnesses| && Current(s).witnesses[k].proof.index == w.proof.index
    then DuplicateWitness
    else WitnessesFull
  }

  // While every stored report names a client, a report is taken exactly when it is welcome, it is then the last one
  // stored, and the one that makes the number wanted starts the first round. Otherwise nothing changes.
  lemma WarmupReportCases(c: Config, s: State, from: NodeIdentity, w: Witness, now: nat, seed: nat)
    requires ConfigOk(c) && Inv(c, s) && s.runState == Warmup && AllResolve(s)
    ensures var ws := Current(s).witnesses;
      WarmupWitnessStep(c, s, from, w, now, seed) ==
        if !WelcomesReport(s, from, w) then Done((s, Err(ReportRefused(s, from, w))))
        else if |ws| + 1 == ReportsWanted(c, s) then Done((FirstStarted(s, now, seed), Ok(())))
        else Done((s.(rounds := s.rounds[s.roundsHead := Current(s).(witnesses := ws + [w])]), Ok(())))
  {
    if VerifyClient(from, w.proof.index, s.clients) {
      DuplicateIsSameIndex(s, from, w.proof.index);
    }
    if WelcomesReport(s, from, w) {
      FirstRoundOver(c, s, w, now, seed);
    }
  }

  lemma {:induction false} ScannedAllResolve(clients: seq<Client>, ws: seq<Witness>, from: NodeIdentity)
    requires HasWitnessed(clients, ws, from) == Done(false)
    ensures forall k :: 0 <= k < |ws| ==> ws[k].proof.index < |clients|
  {
    if ws != [] {
      ScannedAllResolve(clients, ws[1..], from);
      assert forall k :: 0 < k < |ws| ==> ws[k] == ws[1..][k - 1];
    }
  }

  // Once a stored report names nobody, no further report is taken: it aborts, or is refused as a duplicate when the
  // sender's own report comes before all that name nobody, or as out of place.
  lemma StaleReportCases(c: Config, s: State, from: NodeIdentity, w: Witness, now: nat, seed: nat)
    requires s.runState == Warmup && !AllResolve(s)
    ensures WarmupWitnessStep(c, s, from, w, now, seed) ==
      if !(w.proof.index < |s.clients| && s.clients[w.proof.index].id == from) then Done((s, Err(InvalidCommitteeProof)))
      else if StaleBeforeMatch(s.clients, Current(s).witnesses, from) then Panic
      else Done((s, Err(DuplicateWitness)))
  {
    ScanPanicsIffStale(s.clients, Current(s).witnesses, from);
    if HasWitnessed(s.clients, Current(s).witnesses, from) == Done(false) {
      ScannedAllResolve(s.clients, Current(s).witnesses, from);
    }
  }

  // The first round takes the slot in which the reports of the warmup were kept.
  lemma FirstRoundOver(c: Config, s: State, w: Witness, now: nat, seed: nat)
    requires Inv(c, s) && s.runState == Warmup
    ensures StartRoundTrain(c, PushWitness(s, w), now, seed, 0) == Done(FirstStarted(s, now, seed))
  {
    var pushed := PushWitness(s, w);
    assert s.roundsHead == 0;
    assert pushed.rounds[0 := Round([], s.epochStartDataIndex, seed, 0, |s.clients|, 0)] ==
           s.rounds[0 := Round([], s.epochStartDataIndex, seed, 0, |s.clients|, 0)];
  }

  // Outside warmup a late report is taken without effect while the first rounds train, and refused otherwise.
  lemma LateReportCases(c: Config, s: State, from: NodeIdentity, w: Witness, now: nat, seed: nat)
    requires s.runState != Warmup
    ensures WarmupWitnessStep(c, s, from, w, now, seed) ==
      Done((s, match s.runState
               case RoundTrain => Ok(())
               case Uninitialized => Err(Halted)
               case Finished => Err(Halted)
               case Paused => Err(Halted)
               case _ => Err(InvalidRunState)))
  {
  }

  // ------------------------------------------------------------------ reports in a round

  // A report in a round is refused as a duplicate when its proof is good, and as invalid otherwise.
  lemma ReportReplies(c: Config, s: State, sel: Selection, from: NodeIdentity, w: Witness, now: nat)
    requires ConfigOk(c) && Inv(c, s) && InRound(s.runState) && SelectionFor(c, Current(s)) == Ok(sel)
    ensures WitnessStep(c, s, from, w, now).Done?
    ensures var good :=
        && w.proof.index < |s.clients| && s.clients[w.proof.index].id == from && w.proof.index < sel.total
        && w.proof == sel.GetWitness(c.sha256, w.proof.index) && sel.Elected(c.sha256, w.proof.index);
      WitnessStep(c, s, from, w, now).value.1 ==
        if Accepts(c, s, sel, from, w) then Ok(()) else if good then Err(DuplicateWitness) else Err(InvalidWitness)
  {
    WitnessCases(c, s, sel, from, w, now);
    if VerifyClient(from, w.proof.index, s.clients) {
      DuplicateIsSameIndex(s, from, w.proof.index);
    }
  }

  lemma OutOfPlaceReports(c: Config, s: State, from: NodeIdentity, w: Witness, now: nat)
    requires !InRound(s.runState) || SelectionFor(c, Current(s)).Err?
    ensures WitnessStep(c, s, from, w, now) ==
      Done((s, Err(match s.runState
                   case Uninitialized => Halted
                   case Finished => Halted
                   case Paused => Halted
                   case RoundTrain => InvalidSelection
                   case RoundWitness => InvalidSelection
                   case _ => InvalidRunState)))
  {
  }

  // ------------------------------------------------------------------ requests

  // Only the client at the index changes, and only its state.
  ghost predicate Marks(s: State, t: State, index: nat, mark: ClientState)
  {
    && t == s.(clients := t.clients) && |t.clients| == |s.clients| && index < |s.clients|
    && forall i :: 0 <= i < |s.clients| ==>
         t.clients[i] == if i == index then s.clients[i].(state := mark) else s.clients[i]
  }

  // Who takes part may withdraw; who takes part or was dropped may be ejected; nobody else is touched.
  lemma LeavingCases(s: State, index: nat)
    ensures var (t, r) := WithdrawStep(s, index);
      if index < |s.clients| && s.clients[index].state == Healthy then r == Ok(()) && Marks(s, t, index, Withdrawn)
      else r == Err(InvalidWithdraw) && t == s
    ensures var (t, r) := EjectStep(s, index);
      if index < |s.clients| && s.clients[index].state != Withdrawn && s.clients[index].state != Ejected
      then r == Ok(()) && Marks(s, t, index, Ejected)
      else r == Err(InvalidSlash) && t == s
  {
  }

  // A pause waits for the end of an epoch that has started its rounds, takes effect at once before that, and is
  // refused when the run stands still. A paused run goes on to wait for members, or is finished when no step is left.
  lemma PausingCases(c: Config, s: State, now: nat)
    requires s.step <= c.totalSteps
    ensures PauseStep(s, now) ==
      match s.runState {
        case WaitingForMembers => Done((Stopped(s, now), Ok(())))
        case Warmup => Done((Stopped(s, now), Ok(())))
        case RoundTrain => Done((s.(pendingPause := true), Ok(())))
        case RoundWitness => Done((s.(pendingPause := true), Ok(())))
        case Cooldown => Done((s.(pendingPause := true), Ok(())))
        case _ => Done((s, Err(Halted)))
      }
    ensures ResumeStep(c, s, now) ==
      if s.runState != Paused then Done((s, Err(CannotResume)))
      else Done((s.(runState := if s.step == c.totalSteps then Finished else WaitingForMembers, stateStart := now), Ok(())))
  {
  }

  // Everybody is withdrawn, and the next epoch will start cold.
  function Stopped(s: State, now: nat): (t: State)
  {
    s.(runState := Paused, stateStart := now, coldStart := true, clients := WithdrawnClients(s.clients))
  }

  // A run that stands still does not tick.
  lemma HaltedTick(c: Config, s: State, pending: Option<seq<NodeIdentity>>, now: nat, seed: nat)
    requires s.runState == Uninitialized || s.runState == Finished || s.runState == Paused
    ensures TickStep(c, s, pending, now, seed) == Done((s, Err(Halted)))
  {
  }
}
