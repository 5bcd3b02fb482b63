/** Every operation keeps the invariant and, from a state that satisfies it, never panics; the one
    exception, a warmup witness, panics exactly when a stored index has gone stale. */
module CoordinatorSteps {
  import opened Wrappers
  import opened Sequences
  import opened CommitteeDraw
  import opened CoordinatorSpec
  import opened CoordinatorInvariants

  // ------------------------------------------------------------------ frames

  lemma RingFrame(c: Config, s: State, t: State)
    requires RingInv(c, s)
    requires t.rounds == s.rounds && t.roundsHead == s.roundsHead && t.startStep == s.startStep
    ensures RingInv(c, t)
  {
    forall back: nat | Started(t) && InWindow(t, back)
      ensures RoundFacts(c, t, back)
    {
      assert InWindow(s, back) && RoundFacts(c, s, back);
    }
  }

  // Clearing or extending the current round's witness list.
  lemma RingWitnessFrame(c: Config, s: State, t: State, ws: seq<Witness>)
    requires RingInv(c, s)
    requires t.rounds == s.rounds[s.roundsHead := Current(s).(witnesses := ws)]
    requires t.roundsHead == s.roundsHead && t.startStep == s.startStep
    ensures RingInv(c, t)
  {
    forall back: nat | Started(t) && InWindow(t, back)
      ensures RoundFacts(c, t, back)
    {
      assert InWindow(s, back) && RoundFacts(c, s, back);
    }
  }

  // Client states may change, identities and positions may not.
  lemma RelabelKeepsInv(c: Config, s: State, clients: seq<Client>)
    requires Inv(c, s) && Ids(clients) == Ids(s.clients)
    ensures Inv(c, s.(clients := clients))
  {
    RingFrame(c, s, s.(clients := clients));
  }

  // ------------------------------------------------------------------ leaving, pausing

  lemma WithdrawKeepsInv(c: Config, s: State, index: nat)
    requires Inv(c, s)
    ensures Inv(c, WithdrawStep(s, index).0)
  {
    var t := WithdrawStep(s, index).0;
    assert Ids(t.clients) == Ids(s.clients);
    RelabelKeepsInv(c, s, t.clients);
  }

  lemma EjectKeepsInv(c: Config, s: State, index: nat)
    requires Inv(c, s)
    ensures Inv(c, EjectStep(s, index).0)
  {
    var t := EjectStep(s, index).0;
    assert Ids(t.clients) == Ids(s.clients);
    RelabelKeepsInv(c, s, t.clients);
  }

  lemma PauseKeepsInv(c: Config, s: State, now: nat)
    requires Inv(c, s)
    ensures PauseStep(s, now).Done? && Inv(c, PauseStep(s, now).value.0)
  {
    WithdrawKeepsIds(s.clients);
    RelabelKeepsInv(c, s, WithdrawnClients(s.clients));
    RingFrame(c, s, PauseStep(s, now).value.0);
  }

  lemma ResumeKeepsInv(c: Config, s: State, now: nat)
    requires Inv(c, s)
    ensures ResumeStep(c, s, now).Done? && Inv(c, ResumeStep(c, s, now).value.0)
  {
    RingFrame(c, s, ResumeStep(c, s, now).value.0);
  }

  // ------------------------------------------------------------------ starting a round

  // A round opened on a state whose data index is up to date extends the ring by one.
  lemma OpenFirstRound(c: Config, s: State, now: nat, seed: nat)
    requires ConfigOk(c)
    requires s.runState == Warmup && ProgressInv(c, s) && RingInv(c, s) && MembersInv(c, s)
    ensures StartRoundTrain(c, s, now, seed, 0).Done?
    ensures Inv(c, StartRoundTrain(c, s, now, seed, 0).value)
  {
  }

  // The state between two rounds: the step is counted, the leavers are gone, the next round is due.
  ghost predicate BetweenRounds(c: Config, s: State)
  {
    && s.runState == RoundWitness
    && RingInv(c, s) && Started(s) && !s.firstRound && Current(s).witnesses != []
    && 1 <= s.step < c.totalSteps && s.step == s.startStep + Current(s).height + 1
    && !s.pendingPause
    && (s.lastStep != 0 ==> s.step < s.lastStep <= s.step + 2)
    && NoRepeats(Roster(s))
    && c.minClients <= |s.clients| && |s.clients| + |s.exited| <= SOLANA_MAX_NUM_CLIENTS
    && ExitsOrdered(s.exited, Current(s).height)
  }

  lemma OpenNextFacts(c: Config, s: State, now: nat, seed: nat, back: nat)
    requires ConfigOk(c) && BetweenRounds(c, s)
    requires var o := StartRoundTrain(c, s, now, seed, 0); o.Done? && InWindow(o.value, back)
    ensures RoundFacts(c, StartRoundTrain(c, s, now, seed, 0).value, back)
  {
    var t := StartRoundTrain(c, s, now, seed, 0).value;
    assert InWindow(s, 0) && RoundFacts(c, s, 0);
    if back > 0 {
      assert InWindow(s, back - 1) && RoundFacts(c, s, back - 1);
      assert RoundBack(t, back) == RoundBack(s, back - 1);
    }
  }

  lemma OpenNextRing(c: Config, s: State, now: nat, seed: nat)
    requires ConfigOk(c) && BetweenRounds(c, s)
    ensures StartRoundTrain(c, s, now, seed, 0).Done?
    ensures RingInv(c, StartRoundTrain(c, s, now, seed, 0).value)
  {
    var t := StartRoundTrain(c, s, now, seed, 0).value;
    assert InWindow(s, 0) && RoundFacts(c, s, 0);
    forall back: nat | InWindow(t, back)
      ensures RoundFacts(c, t, back)
    {
      OpenNextFacts(c, s, now, seed, back);
    }
  }

  lemma OpenNextRound(c: Config, s: State, now: nat, seed: nat)
    requires ConfigOk(c) && BetweenRounds(c, s)
    ensures StartRoundTrain(c, s, now, seed, 0).Done?
    ensures Inv(c, StartRoundTrain(c, s, now, seed, 0).value)
  {
    OpenNextRing(c, s, now, seed);
  }

  // ------------------------------------------------------------------ ticking

  // A fresh epoch: only its members and its start are set.
  lemma FreshEpochInv(c: Config, s: State)
    requires ConfigOk(c) && s.runState == Warmup
    requires s.rounds == ZERO_RING && s.roundsHead == 0 && s.exited == []
    requires 1 <= s.step < c.totalSteps && !s.pendingPause && s.epochStartDataIndex == StepStart(c, s.step)
    requires s.firstRound && s.startStep == s.step && s.lastStep == 0
    requires forall i, j :: 0 <= i < j < |s.clients| ==> Ids(s.clients)[i] != Ids(s.clients)[j]
    requires c.minClients <= |s.clients| <= SOLANA_MAX_NUM_CLIENTS
    ensures Inv(c, s)
  {
    DistinctOnce(Ids(s.clients));
    assert Roster(s) == multiset(Ids(s.clients));
  }

  // The tick opens an epoch.
  predicate Opens(c: Config, s: State, pending: Option<seq<NodeIdentity>>, now: nat)
  {
    && s.runState == WaitingForMembers
    && pending.Some? && |pending.value| % 0x1_0000 >= c.initMinClients
    && now != s.stateStart && now - s.stateStart >= c.waitingForMembersExtraTime
  }

  // When an epoch opens, and what it then holds; otherwise nothing changes.
  lemma TickWaitingCases(c: Config, s: State, pending: Option<seq<NodeIdentity>>, now: nat)
    requires s.runState == WaitingForMembers && |s.clients| + |s.exited| <= SOLANA_MAX_NUM_CLIENTS
    ensures TickWaiting(c, s, pending, now).Done? && TickWaiting(c, s, pending, now).value.1 == Ticked
    ensures TickWaiting(c, s, pending, now).value.0 ==
      if Opens(c, s, pending, now)
      then State(Warmup, now, s.pendingPause, s.epoch, s.step, s.epochStartDataIndex, ZERO_RING, 0,
                 NewClients(if |pending.value| <= 256 then pending.value else pending.value[..256]), [],
                 s.step, 0, now, true, s.coldStart)
      else s
  {
    MoveFits(s, Current(s).height);
  }

  // Nobody is admitted twice.
  predicate AdmitsOnce(c: Config, s: State, pending: Option<seq<NodeIdentity>>, now: nat)
  {
    Opens(c, s, pending, now) ==> Distinct(Admitted(pending.value))
  }

  lemma RepeatedMember(c: Config, s: State, ids: seq<NodeIdentity>)
    requires Inv(c, s) && s.clients == NewClients(ids)
    ensures Distinct(ids)
  {
    forall i, j | 0 <= i < j < |ids|
      ensures ids[i] != ids[j]
    {
      OnePositionPerId(s, i, j);
    }
  }

  // A waiting tick keeps the invariant exactly when nobody is admitted twice.
  lemma TickWaitingKeepsInvIff(c: Config, s: State, pending: Option<seq<NodeIdentity>>, now: nat)
    requires ConfigOk(c) && Inv(c, s) && s.runState == WaitingForMembers
    ensures TickWaiting(c, s, pending, now).Done?
    ensures Inv(c, TickWaiting(c, s, pending, now).value.0) <==> AdmitsOnce(c, s, pending, now)
  {
    TickWaitingCases(c, s, pending, now);
    var t := TickWaiting(c, s, pending, now).value.0;
    if Opens(c, s, pending, now) {
      if Distinct(Admitted(pending.value)) {
        FreshEpochInv(c, t);
      } else if Inv(c, t) {
        RepeatedMember(c, t, Admitted(pending.value));
      }
    }
  }

  lemma {:induction false} DistinctOnce(ids: seq<NodeIdentity>)
    requires forall i, j :: 0 <= i < j < |ids| ==> ids[i] != ids[j]
    ensures NoRepeats(multiset(ids))
  {
    if ids != [] {
      var last := |ids| - 1;
      DistinctOnce(ids[..last]);
      assert ids == ids[..last] + [ids[last]];
      assert ids[last] !in multiset(ids[..last]);
    }
  }

  // In Warmup there are always enough clients, so a timeout never ends the epoch.
  lemma TickWarmupKeepsInv(c: Config, s: State, now: nat, seed: nat)
    requires ConfigOk(c) && Inv(c, s) && s.runState == Warmup
    ensures TickWarmup(c, s, now, seed).Done?
    ensures Inv(c, TickWarmup(c, s, now, seed).value.0)
    ensures TimedOut(s, now, c.warmupTime) ==> TickWarmup(c, s, now, seed).value.1 == Ticked
  {
    if TimedOut(s, now, c.warmupTime) {
      OpenFirstRound(c, s, now, seed);
    } else {
      WarmupCompactionKeepsInv(c, s, now);
    }
  }

  // Before the timeout the leavers go, and the epoch is given up when too few stay.
  lemma WarmupCompactionKeepsInv(c: Config, s: State, now: nat)
    requires Inv(c, s) && s.runState == Warmup
    ensures MoveClientsToExited(s, 0).Done?
    ensures var t := MoveClientsToExited(s, 0).value;
      if c.minClients <= |t.clients| then Inv(c, t)
      else StartWaitingForMembers(c, t, now).Done? && Inv(c, StartWaitingForMembers(c, t, now).value)
  {
    MoveFits(s, 0);
    MoveKeepsOrder(s.exited, s.clients, 0);
    var t := MoveClientsToExited(s, 0).value;
    RingFrame(c, s, t);
    if |t.clients| < c.minClients {
      RingFrame(c, s, StartWaitingForMembers(c, t, now).value);
    }
  }

  lemma TickRoundTrainKeepsInv(c: Config, s: State, now: nat)
    requires Inv(c, s) && s.runState == RoundTrain
    ensures TickRoundTrain(c, s, now).Done?
    ensures Inv(c, TickRoundTrain(c, s, now).value.0)
  {
    RingFrame(c, s, TickRoundTrain(c, s, now).value.0);
  }

  // Everything about a closed round that either continuation needs.
  lemma CloseRoundFacts(c: Config, s: State)
    requires Inv(c, s) && s.runState == RoundWitness
    ensures CloseRound(s).Done?
    ensures Closed(c, CloseRound(s).value)
    ensures CloseRound(s).value.rounds == s.rounds && CloseRound(s).value.roundsHead == s.roundsHead
  {
    var s1 := s.(firstRound := false, step := s.step + 1);
    MoveFits(s1, Current(s).height);
    MoveKeepsOrder(s.exited, s.clients, Current(s).height);
    assert Roster(s1) == Roster(s);
    RingFrame(c, s, CloseRound(s).value);
  }

  lemma CoolDownKeepsInv(c: Config, s: State, now: nat)
    requires s.runState == RoundWitness && RingInv(c, s) && Started(s) && !s.firstRound
    requires 1 <= s.step <= c.totalSteps && s.step == s.startStep + Current(s).height + 1
    requires NoRepeats(Roster(s))
    requires |s.clients| + |s.exited| <= SOLANA_MAX_NUM_CLIENTS
    requires ExitsOrdered(s.exited, Current(s).height)
    ensures StartCooldown(s, now).Done? && Inv(c, StartCooldown(s, now).value)
  {
    RingWitnessFrame(c, s, StartCooldown(s, now).value, []);
  }

  // A round that has just been closed.
  ghost predicate Closed(c: Config, s: State)
  {
    && s.runState == RoundWitness && RingInv(c, s) && Started(s) && !s.firstRound
    && 1 < s.step <= c.totalSteps && s.step == s.startStep + Current(s).height + 1
    && NoRepeats(Roster(s)) && |s.clients| + |s.exited| <= SOLANA_MAX_NUM_CLIENTS
    && ExitsOrdered(s.exited, Current(s).height)
    && (s.lastStep != 0 ==> s.step <= s.lastStep <= s.step + 1)
  }

  lemma EmptyRoundKeepsInv(c: Config, s: State, now: nat)
    requires Closed(c, s)
    ensures StartCooldown(WithdrawAll(s), now).Done?
    ensures Inv(c, StartCooldown(WithdrawAll(s), now).value)
  {
    WithdrawKeepsIds(s.clients);
    RingFrame(c, s, WithdrawAll(s));
    CoolDownKeepsInv(c, WithdrawAll(s), now);
  }

  lemma WitnessedRoundCools(c: Config, s: State, now: nat)
    requires Closed(c, s)
    ensures StartCooldown(NoticeDeadline(c, s, now), now).Done?
    ensures Inv(c, StartCooldown(NoticeDeadline(c, s, now), now).value)
  {
    var s2 := NoticeDeadline(c, s, now);
    RingFrame(c, s, s2);
    assert Roster(s2) == Roster(s);
    CoolDownKeepsInv(c, s2, now);
  }

  lemma WitnessedRoundContinues(c: Config, s: State, now: nat, seed: nat, quorum: nat)
    requires ConfigOk(c) && Closed(c, s) && Current(s).witnesses != []
    requires var s2 := NoticeDeadline(c, s, now);
      && !(s2.lastStep != 0 && s2.step == s2.lastStep)
      && !MustCoolDown(c, s2, |Current(s).witnesses|, quorum)
    ensures StartRoundTrain(c, NoticeDeadline(c, s, now), now, seed, 0).Done?
    ensures Inv(c, StartRoundTrain(c, NoticeDeadline(c, s, now), now, seed, 0).value)
  {
    var s2 := NoticeDeadline(c, s, now);
    RingFrame(c, s, s2);
    assert Roster(s2) == Roster(s);
    OpenNextRound(c, s2, now, seed);
  }

  lemma LeaveRoundKeepsInv(c: Config, s: State, now: nat, seed: nat)
    requires ConfigOk(c) && Closed(c, s)
    ensures LeaveRound(c, s, |Current(s).witnesses|, now, seed).Done?
    ensures Inv(c, LeaveRound(c, s, |Current(s).witnesses|, now, seed).value)
  {
    if Current(s).witnesses == [] {
      EmptyRoundKeepsInv(c, s, now);
    } else {
      var s2 := NoticeDeadline(c, s, now);
      var quorum := WitnessQuorum(c, |Current(s).witnesses|).value;
      if (s2.lastStep != 0 && s2.step == s2.lastStep)
         || MustCoolDown(c, s2, |Current(s).witnesses|, quorum) {
        WitnessedRoundCools(c, s, now);
      } else {
        WitnessedRoundContinues(c, s, now, seed, quorum);
      }
    }
  }

  lemma TickRoundWitnessKeepsInv(c: Config, s: State, now: nat, seed: nat)
    requires ConfigOk(c) && Inv(c, s) && s.runState == RoundWitness
    ensures TickRoundWitness(c, s, now, seed).Done?
    ensures Inv(c, TickRoundWitness(c, s, now, seed).value.0)
  {
    if TimedOut(s, now, c.roundWitnessTime) {
      CloseRoundFacts(c, s);
      LeaveRoundKeepsInv(c, CloseRound(s).value, now, seed);
    }
  }

  // The epoch's data ends exactly where the next step starts.
  lemma CooldownDataIndex(c: Config, s: State)
    requires s.runState == Cooldown && ProgressInv(c, s) && RingInv(c, s)
    ensures Current(s).dataIndex + BatchAt(c, Current(s).dataIndex) == StepStart(c, s.step)
  {
    assert InWindow(s, 0) && RoundFacts(c, s, 0);
    assert StepStart(c, s.step) == StepStart(c, s.step - 1) + BatchAt(c, StepStart(c, s.step - 1));
  }

  ghost predicate Settled(c: Config, s: State)
  {
    && s.runState == Cooldown && RingInv(c, s) && 1 <= s.step <= c.totalSteps
    && s.epochStartDataIndex == StepStart(c, s.step)
    && NoRepeats(Roster(s)) && |s.clients| + |s.exited| <= SOLANA_MAX_NUM_CLIENTS
    && ExitsOrdered(s.exited, Current(s).height)
  }

  lemma SettleFacts(c: Config, s: State)
    requires Inv(c, s) && s.runState == Cooldown
    ensures SettleEpoch(c, s).Done? && Settled(c, SettleEpoch(c, s).value)
  {
    var last := Current(s);
    CooldownDataIndex(c, s);
    var s0 := s.(epochStartDataIndex := StepStart(c, s.step), epoch := s.epoch + 1);
    MoveFits(s0, last.height);
    MoveKeepsOrder(s.exited, s.clients, last.height);
    assert Roster(s0) == Roster(s);
    RingFrame(c, s, SettleEpoch(c, s).value);
  }

  // Outside the active states a settled epoch only has to keep its books.
  lemma SettledStateInv(c: Config, s: State, t: State)
    requires Settled(c, s) && Ids(t.clients) == Ids(s.clients) && t.exited == s.exited
    requires t.rounds == s.rounds && t.roundsHead == s.roundsHead && t.startStep == s.startStep
    requires t.step == s.step && t.epochStartDataIndex == s.epochStartDataIndex && !t.pendingPause
    requires IsHalted(t.runState) || (t.runState == WaitingForMembers && t.step < c.totalSteps)
    ensures Inv(c, t)
  {
    RingFrame(c, s, t);
  }

  lemma LeaveEpochInv(c: Config, s: State, now: nat)
    requires Settled(c, s)
    ensures LeaveEpoch(c, s, now).Done? && Inv(c, LeaveEpoch(c, s, now).value)
  {
    WithdrawKeepsIds(s.clients);
    SettledStateInv(c, s, LeaveEpoch(c, s, now).value);
  }

  lemma TickCooldownKeepsInv(c: Config, s: State, now: nat)
    requires Inv(c, s) && s.runState == Cooldown
    ensures TickCooldown(c, s, now).Done?
    ensures Inv(c, TickCooldown(c, s, now).value.0)
  {
    if TimedOut(s, now, c.cooldownTime) {
      SettleFacts(c, s);
      LeaveEpochInv(c, SettleEpoch(c, s).value, now);
    }
  }

  // A tick is the tick of its state.
  lemma WaitingTickIs(c: Config, s: State, pending: Option<seq<NodeIdentity>>, now: nat, seed: nat)
    requires s.runState == WaitingForMembers && TickWaiting(c, s, pending, now).Done?
    ensures TickStep(c, s, pending, now, seed).Done?
    ensures TickStep(c, s, pending, now, seed).value == (TickWaiting(c, s, pending, now).value.0, Ok(TickWaiting(c, s, pending, now).value.1))
  {
  }

  lemma WarmupTickIs(c: Config, s: State, pending: Option<seq<NodeIdentity>>, now: nat, seed: nat)
    requires s.runState == Warmup && TickWarmup(c, s, now, seed).Done?
    ensures TickStep(c, s, pending, now, seed).Done?
    ensures TickStep(c, s, pending, now, seed).value == (TickWarmup(c, s, now, seed).value.0, Ok(TickWarmup(c, s, now, seed).value.1))
  {
  }

  lemma TrainTickIs(c: Config, s: State, pending: Option<seq<NodeIdentity>>, now: nat, seed: nat)
    requires s.runState == RoundTrain && TickRoundTrain(c, s, now).Done?
    ensures TickStep(c, s, pending, now, seed).Done?
    ensures TickStep(c, s, pending, now, seed).value == (TickRoundTrain(c, s, now).value.0, Ok(TickRoundTrain(c, s, now).value.1))
  {
  }

  lemma WitnessTickIs(c: Config, s: State, pending: Option<seq<NodeIdentity>>, now: nat, seed: nat)
    requires s.runState == RoundWitness && TickRoundWitness(c, s, now, seed).Done?
    ensures TickStep(c, s, pending, now, seed).Done?
    ensures TickStep(c, s, pending, now, seed).value == (TickRoundWitness(c, s, now, seed).value.0, Ok(TickRoundWitness(c, s, now, seed).value.1))
  {
  }

  lemma CooldownTickIs(c: Config, s: State, pending: Option<seq<NodeIdentity>>, now: nat, seed: nat)
    requires s.runState == Cooldown && TickCooldown(c, s, now).Done?
    ensures TickStep(c, s, pending, now, seed).Done?
    ensures TickStep(c, s, pending, now, seed).value == (TickCooldown(c, s, now).value.0, Ok(TickCooldown(c, s, now).value.1))
  {
  }

  lemma TickKeepsInvIff(c: Config, s: State, pending: Option<seq<NodeIdentity>>, now: nat, seed: nat)
    requires ConfigOk(c) && Inv(c, s)
    ensures TickStep(c, s, pending, now, seed).Done?
    ensures Inv(c, TickStep(c, s, pending, now, seed).value.0) <==> AdmitsOnce(c, s, pending, now)
  {
    match s.runState
    case WaitingForMembers =>
      TickWaitingKeepsInvIff(c, s, pending, now);
      WaitingTickIs(c, s, pending, now, seed);
    case Warmup =>
      TickWarmupKeepsInv(c, s, now, seed);
      WarmupTickIs(c, s, pending, now, seed);
    case RoundTrain =>
      TickRoundTrainKeepsInv(c, s, now);
      TrainTickIs(c, s, pending, now, seed);
    case RoundWitness =>
      TickRoundWitnessKeepsInv(c, s, now, seed);
      WitnessTickIs(c, s, pending, now, seed);
    case Cooldown =>
      TickCooldownKeepsInv(c, s, now);
      CooldownTickIs(c, s, pending, now, seed);
    case _ =>
  }

  // ------------------------------------------------------------------ witnessing

  ghost function StoredIndices(ws: seq<Witness>): (r: set<nat>)
  {
    set i | 0 <= i < |ws| :: ws[i].proof.index
  }

  lemma {:induction false} StoredCount(ws: seq<Witness>)
    requires forall i, j :: 0 <= i < j < |ws| ==> ws[i].proof.index != ws[j].proof.index
    ensures |StoredIndices(ws)| == |ws|
  {
    if ws != [] {
      var last := |ws| - 1;
      var front := ws[..last];
      StoredCount(front);
      forall k | k in StoredIndices(ws)
        ensures k in StoredIndices(front) + {ws[last].proof.index}
      {
        var i :| 0 <= i < |ws| && ws[i].proof.index == k;
        if i < last {
          assert front[i].proof.index == k;
        }
      }
      forall k | k in StoredIndices(front)
        ensures k in StoredIndices(ws)
      {
        var i :| 0 <= i < |front| && front[i].proof.index == k;
        assert ws[i].proof.index == k;
      }
      assert StoredIndices(ws) == StoredIndices(front) + {ws[last].proof.index};
    }
  }

  lemma SubsetCount<T>(a: set<T>, b: set<T>)
    requires a <= b
    ensures |a| <= |b|
    ensures |a| == |b| <==> a == b
  {
    assert b == a + (b - a);
    assert |b| == |a| + |b - a|;
  }

  // The stored witnesses are distinct elected clients, so there are at most as many as seats,
  // and the seats are full exactly when everyone elected has been stored.
  lemma StoredAgainstElected(c: Config, round: Round, sel: Selection)
    requires SelectionFor(c, round) == Ok(sel) && StoredOk(c, round)
    ensures StoredIndices(round.witnesses) <= Witnesses(sel, c.sha256)
    ensures |round.witnesses| <= |Witnesses(sel, c.sha256)|
    ensures |round.witnesses| == |Witnesses(sel, c.sha256)| <==>
      StoredIndices(round.witnesses) == Witnesses(sel, c.sha256)
  {
    StoredCount(round.witnesses);
    SubsetCount(StoredIndices(round.witnesses), Witnesses(sel, c.sha256));
  }

  // Everyone elected for the current round: exactly the number the coordinator waits for.
  lemma ElectedIsTarget(c: Config, s: State, sel: Selection)
    requires ConfigOk(c) && Inv(c, s) && InRound(s.runState) && SelectionFor(c, Current(s)) == Ok(sel)
    ensures |Witnesses(sel, c.sha256)| == WitnessTarget(c, s.clients)
    ensures WitnessTarget(c, s.clients) <= SOLANA_MAX_NUM_WITNESSES
    ensures sel.total == |s.clients|
  {
    WitnessCount(sel, c.sha256);
  }

  lemma {:induction false} StoredResolve(clients: seq<Client>, ws: seq<Witness>, from: NodeIdentity)
    requires forall i :: 0 <= i < |ws| ==> ws[i].proof.index < |clients|
    ensures HasWitnessed(clients, ws, from).Done?
    ensures HasWitnessed(clients, ws, from).value <==>
      exists i :: 0 <= i < |ws| && clients[ws[i].proof.index].id == from
  {
    if ws != [] {
      StoredResolve(clients, ws[1..], from);
      if HasWitnessed(clients, ws[1..], from).value {
        var i :| 0 <= i < |ws[1..]| && clients[ws[1..][i].proof.index].id == from;
        assert clients[ws[i + 1].proof.index].id == from;
      }
      if i :| 0 <= i < |ws| && clients[ws[i].proof.index].id == from {
        if i > 0 {
          assert ws[1..][i - 1] == ws[i];
        }
      }
    }
  }

  // The proof is the sender's own, says elected, and nobody has stored that index before.
  predicate Accepts(c: Config, s: State, sel: Selection, from: NodeIdentity, w: Witness)
  {
    && VerifyClient(from, w.proof.index, s.clients)
    && w.proof.index < sel.total && sel.VerifyWitness(c.sha256, w.proof) && !w.proof.elected.IsFalse()
    && (forall i :: 0 <= i < |Current(s).witnesses| ==> Current(s).witnesses[i].proof.index != w.proof.index)
  }

  // The duplicate scan resolves every stored index and finds the sender's own and no other.
  lemma DuplicateIsSameIndex(s: State, from: NodeIdentity, index: nat)
    requires NoRepeats(Roster(s)) && VerifyClient(from, index, s.clients)
    requires forall i :: 0 <= i < |Current(s).witnesses| ==> Current(s).witnesses[i].proof.index < |s.clients|
    ensures HasWitnessed(s.clients, Current(s).witnesses, from).Done?
    ensures HasWitnessed(s.clients, Current(s).witnesses, from).value <==>
      exists i :: 0 <= i < |Current(s).witnesses| && Current(s).witnesses[i].proof.index == index
  {
    var ws := Current(s).witnesses;
    StoredResolve(s.clients, ws, from);
    forall i | 0 <= i < |ws|
      ensures s.clients[ws[i].proof.index].id == from <==> ws[i].proof.index == index
    {
      OnePositionPerId(s, ws[i].proof.index, index);
    }
  }

  // An elected client that has not been stored always finds room.
  lemma RoomForElected(c: Config, s: State, sel: Selection, from: NodeIdentity, w: Witness)
    requires ConfigOk(c) && Inv(c, s) && InRound(s.runState) && SelectionFor(c, Current(s)) == Ok(sel)
    requires Accepts(c, s, sel, from, w)
    ensures |Current(s).witnesses| < WitnessTarget(c, s.clients) <= SOLANA_MAX_NUM_WITNESSES
  {
    ElectedIsTarget(c, s, sel);
    StoredAgainstElected(c, Current(s), sel);
    assert w.proof.index in Witnesses(sel, c.sha256) && w.proof.index !in StoredIndices(Current(s).witnesses);
  }

  lemma WitnessCases(c: Config, s: State, sel: Selection, from: NodeIdentity, w: Witness, now: nat)
    requires ConfigOk(c) && Inv(c, s) && InRound(s.runState) && SelectionFor(c, Current(s)) == Ok(sel)
    ensures WitnessStep(c, s, from, w, now).Done?
    ensures Accepts(c, s, sel, from, w) <==> WitnessStep(c, s, from, w, now).value.1.Ok?
    ensures !Accepts(c, s, sel, from, w) ==>
      WitnessStep(c, s, from, w, now).value.0 == s && WitnessStep(c, s, from, w, now).value.1 != Err(WitnessesFull)
    ensures Accepts(c, s, sel, from, w) ==>
      var t := PushWitness(s, w);
      WitnessStep(c, s, from, w, now).value.0 ==
        if s.runState == RoundTrain && |Current(t).witnesses| == WitnessTarget(c, s.clients)
        then t.(stateStart := now, runState := RoundWitness) else t
  {
    if VerifyClient(from, w.proof.index, s.clients) {
      DuplicateIsSameIndex(s, from, w.proof.index);
    }
    if Accepts(c, s, sel, from, w) {
      RoomForElected(c, s, sel, from, w);
    }
  }

  lemma PushKeepsInv(c: Config, s: State, sel: Selection, from: NodeIdentity, w: Witness, now: nat)
    requires Inv(c, s) && InRound(s.runState) && SelectionFor(c, Current(s)) == Ok(sel)
    requires Accepts(c, s, sel, from, w)
    ensures Inv(c, PushWitness(s, w))
    ensures Inv(c, PushWitness(s, w).(stateStart := now, runState := RoundWitness))
  {
    var t := PushWitness(s, w);
    var u := t.(stateStart := now, runState := RoundWitness);
    RingWitnessFrame(c, s, t, Current(t).witnesses);
    RingWitnessFrame(c, s, u, Current(t).witnesses);
    assert SelectionFor(c, Current(t)) == Ok(sel);
    assert StoredOk(c, Current(t));
    assert Roster(t) == Roster(s) && Roster(u) == Roster(s);
  }

  lemma WitnessKeepsInv(c: Config, s: State, from: NodeIdentity, w: Witness, now: nat)
    requires ConfigOk(c) && Inv(c, s)
    ensures WitnessStep(c, s, from, w, now).Done? && Inv(c, WitnessStep(c, s, from, w, now).value.0)
    ensures WitnessStep(c, s, from, w, now).value.1 != Err(WitnessesFull)
  {
    if InRound(s.runState) && SelectionFor(c, Current(s)).Ok? {
      var sel := SelectionFor(c, Current(s)).value;
      WitnessCases(c, s, sel, from, w, now);
      if Accepts(c, s, sel, from, w) {
        PushKeepsInv(c, s, sel, from, w, now);
      }
    }
  }

  // An accepted witness ends training early exactly when it completes the elected set.
  lemma TrainingEndsWhenAllWitnessed(c: Config, s: State, from: NodeIdentity, w: Witness, now: nat)
    requires ConfigOk(c) && Inv(c, s) && s.runState == RoundTrain
    requires WitnessStep(c, s, from, w, now).Done? && WitnessStep(c, s, from, w, now).value.1.Ok?
    ensures SelectionFor(c, Current(s)).Ok?
    ensures var t := WitnessStep(c, s, from, w, now).value.0;
      t.runState == RoundWitness <==>
        StoredIndices(Current(t).witnesses) == Witnesses(SelectionFor(c, Current(s)).value, c.sha256)
    ensures var t := WitnessStep(c, s, from, w, now).value.0;
      StoredIndices(Current(t).witnesses) == StoredIndices(Current(s).witnesses) + {w.proof.index}
  {
    var sel := SelectionFor(c, Current(s)).value;
    WitnessCases(c, s, sel, from, w, now);
    PushKeepsInv(c, s, sel, from, w, now);
    var t := PushWitness(s, w);
    assert SelectionFor(c, Current(t)) == Ok(sel);
    ElectedIsTarget(c, s, sel);
    StoredAgainstElected(c, Current(t), sel);
    StoredPush(Current(s).witnesses, w);
  }

  lemma StoredPush(ws: seq<Witness>, w: Witness)
    ensures StoredIndices(ws + [w]) == StoredIndices(ws) + {w.proof.index}
  {
    var more := ws + [w];
    assert more[|ws|] == w;
    forall k | k in StoredIndices(ws)
      ensures k in StoredIndices(more)
    {
      var i :| 0 <= i < |ws| && ws[i].proof.index == k;
      assert more[i].proof.index == k;
    }
  }

  // ------------------------------------------------------------------ warmup witnesses

  // Some stored index no longer resolves, and the sender is not found before it.
  ghost predicate StaleBeforeMatch(clients: seq<Client>, ws: seq<Witness>, from: NodeIdentity)
  {
    exists k :: 0 <= k < |ws| && ws[k].proof.index >= |clients| && NoMatch(clients, ws[..k], from)
  }

  ghost predicate NoMatch(clients: seq<Client>, ws: seq<Witness>, from: NodeIdentity)
  {
    forall j :: 0 <= j < |ws| ==> ws[j].proof.index < |clients| && clients[ws[j].proof.index].id != from
  }

  lemma NoMatchPrepend(clients: seq<Client>, w: Witness, ws: seq<Witness>, from: NodeIdentity)
    ensures NoMatch(clients, [w] + ws, from) <==>
      w.proof.index < |clients| && clients[w.proof.index].id != from && NoMatch(clients, ws, from)
  {
    var all := [w] + ws;
    assert all[0] == w;
    if NoMatch(clients, all, from) {
      forall j | 0 <= j < |ws|
        ensures ws[j].proof.index < |clients| && clients[ws[j].proof.index].id != from
      {
        assert all[j + 1] == ws[j];
      }
    }
  }

  lemma StaleFromRest(clients: seq<Client>, w: Witness, rest: seq<Witness>, from: NodeIdentity)
    requires w.proof.index < |clients| && clients[w.proof.index].id != from
    requires StaleBeforeMatch(clients, rest, from)
    ensures StaleBeforeMatch(clients, [w] + rest, from)
  {
    var k :| 0 <= k < |rest| && rest[k].proof.index >= |clients| && NoMatch(clients, rest[..k], from);
    var all := [w] + rest;
    assert all[k + 1] == rest[k] && all[..k + 1] == [w] + rest[..k];
    NoMatchPrepend(clients, w, rest[..k], from);
  }

  lemma StaleToRest(clients: seq<Client>, w: Witness, rest: seq<Witness>, from: NodeIdentity)
    requires w.proof.index < |clients| && StaleBeforeMatch(clients, [w] + rest, from)
    ensures clients[w.proof.index].id != from && StaleBeforeMatch(clients, rest, from)
  {
    var all := [w] + rest;
    var k :| 0 <= k < |all| && all[k].proof.index >= |clients| && NoMatch(clients, all[..k], from);
    assert all[k] == rest[k - 1] && all[..k] == [w] + rest[..k - 1];
    NoMatchPrepend(clients, w, rest[..k - 1], from);
  }

  lemma {:induction false} ScanPanicsIffStale(clients: seq<Client>, ws: seq<Witness>, from: NodeIdentity)
    ensures HasWitnessed(clients, ws, from).Panic? <==> StaleBeforeMatch(clients, ws, from)
  {
    if ws != [] {
      var w, rest := ws[0], ws[1..];
      assert ws == [w] + rest;
      ScanPanicsIffStale(clients, rest, from);
      if w.proof.index >= |clients| {
        assert NoMatch(clients, ws[..0], from);
      } else {
        if clients[w.proof.index].id != from && StaleBeforeMatch(clients, rest, from) {
          StaleFromRest(clients, w, rest, from);
        }
        if StaleBeforeMatch(clients, ws, from) {
          StaleToRest(clients, w, rest, from);
        }
      }
    }
  }

  // A warmup witness panics exactly when it is sent in Warmup from the sender's own index and the
  // duplicate scan meets a stale index; while nobody has exited the epoch, that cannot happen.
  lemma WarmupWitnessPanicsIff(c: Config, s: State, from: NodeIdentity, w: Witness, now: nat, seed: nat)
    requires ConfigOk(c) && Inv(c, s)
    ensures WarmupWitnessStep(c, s, from, w, now, seed).Panic? <==>
      && s.runState == Warmup && VerifyClient(from, w.proof.index, s.clients)
      && StaleBeforeMatch(s.clients, Current(s).witnesses, from)
    ensures s.exited == [] ==> WarmupWitnessStep(c, s, from, w, now, seed).Done?
  {
    ScanPanicsIffStale(s.clients, Current(s).witnesses, from);
  }

  lemma WarmupPushKeepsInv(c: Config, s: State, w: Witness)
    requires Inv(c, s) && s.runState == Warmup && w.proof.index < |s.clients|
    ensures Inv(c, PushWitness(s, w))
  {
    var t := PushWitness(s, w);
    RingWitnessFrame(c, s, t, Current(t).witnesses);
    assert Roster(t) == Roster(s);
  }

  lemma WarmupWitnessKeepsInv(c: Config, s: State, from: NodeIdentity, w: Witness, now: nat, seed: nat)
    requires ConfigOk(c) && Inv(c, s) && WarmupWitnessStep(c, s, from, w, now, seed).Done?
    ensures Inv(c, WarmupWitnessStep(c, s, from, w, now, seed).value.0)
  {
    var t := WarmupWitnessStep(c, s, from, w, now, seed).value.0;
    if t != s {
      WarmupPushKeepsInv(c, s, w);
      OpenFirstRound(c, PushWitness(s, w), now, seed);
    }
  }
}
