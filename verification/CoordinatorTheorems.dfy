/** The coordinator's guarantees over whole runs. */
module CoordinatorTheorems {
  import opened Sequences
  import opened Wrappers
  import opened CommitteeDraw
  import opened CoordinatorSpec
  import opened CoordinatorInvariants
  import opened CoordinatorSteps
  import opened CoordinatorCases
  import opened CoordinatorHealth
  import opened CoordinatorEffects
  import opened CoordinatorRuns
  import opened ClientOrder

  // ------------------------------------------------------------------ no aborts, no drift

  // In every reachable state the only operation that can abort is a warmup witness whose duplicate
  // scan meets a stale index, and only after somebody has left the epoch.
  lemma ReachableStepsDoNotPanic(c: Config, x: Traced, op: Op)
    requires ConfigOk(c) && Reachable(c, x) && OpOk(op)
    ensures Apply(c, x.s, op).Panic? <==> Aborts(x.s, op)
    ensures Apply(c, x.s, op).Panic? ==> x.s.exited != []
  {
    ReachableInv(c, x);
    StepKeepsInv(c, x.s, op);
    if op.WarmupWitness? {
      WarmupWitnessPanicsIff(c, x.s, op.from, op.w, op.now, op.seed);
    }
  }

  // Bounds every reachable state keeps.
  lemma ReachableBounds(c: Config, x: Traced)
    requires ConfigOk(c) && Reachable(c, x)
    ensures 1 <= x.s.step <= c.totalSteps
    ensures x.s.runState == WaitingForMembers || x.s.runState == Warmup || InRound(x.s.runState) ==> x.s.step < c.totalSteps
    ensures x.s.pendingPause ==> IsActive(x.s.runState)
    ensures x.s.roundsHead == Current(x.s).height % NUM_STORED_ROUNDS
    ensures x.s.runState == Warmup || InRound(x.s.runState) ==> c.minClients <= |x.s.clients|
    ensures InRound(x.s.runState) ==> |x.s.clients| == Current(x.s).clientsLen
    ensures Roster(x.s) == x.h.roster && NoRepeats(x.h.roster) && |x.s.clients| + |x.s.exited| <= SOLANA_MAX_NUM_CLIENTS
    ensures ExitsOrdered(x.s.exited, Current(x.s).height)
  {
    ReachableInv(c, x);
  }

  // ------------------------------------------------------------------ the data is tiled

  // Through any number of epochs, failed warmups and pauses: the rounds of the run follow each
  // other without gap or overlap from index 0, and a round in progress is the last of them.
  lemma RunsTileTheData(c: Config, x: Traced)
    requires ConfigOk(c) && Reachable(c, x)
    ensures |x.h.log| > 0 ==> x.h.log[0].0 == 0
    ensures forall i, j :: 0 <= i && j == i + 1 && j < |x.h.log| ==> x.h.log[j].0 == x.h.log[i].0 + x.h.log[i].1
    ensures InRound(x.s.runState) ==>
      && |x.h.log| == x.s.step >= 1
      && x.h.log[x.s.step - 1] == (Current(x.s).dataIndex, BatchAt(c, Current(x.s).dataIndex))
      && Current(x.s).dataIndex == StepStart(c, x.s.step)
    ensures !IsActive(x.s.runState) ==>
      |x.h.log| == x.s.step - 1 && x.s.epochStartDataIndex == StepStart(c, x.s.step)
  {
    ReachableInv(c, x);
    if InRound(x.s.runState) {
      RoundDataIndex(c, x.s);
    }
  }

  // ------------------------------------------------------------------ historical lookups

  lemma {:induction false} HistoricalFromIs(s: State, from: nat, len: nat)
    requires |s.clients| <= len <= |s.clients| + |s.exited| && from <= len
    ensures HistoricalFrom(s, from, len) == (s.clients + s.exited[|s.clients| + |s.exited| - len..])[from..]
    decreases len - from
  {
    var all := s.clients + s.exited[|s.clients| + |s.exited| - len..];
    if from < len {
      HistoricalFromIs(s, from + 1, len);
      assert HistoricalClient(s, from, len) == Some(all[from]);
      assert all[from..] == [all[from]] + all[from + 1..];
    }
  }

  // The historical list is the live clients followed by those who left since the round started.
  lemma HistoricalIsAccounted(s: State, left: seq<seq<NodeIdentity>>, start: seq<NodeIdentity>)
    requires Accounts(s.clients, s.exited, left, start)
    ensures Ids(HistoricalClients(s, |start|)) ==
      Ids(s.clients) + Ids(s.exited[|s.clients| + |s.exited| - |start|..])
  {
    var since := s.exited[|s.clients| + |s.exited| - |start|..];
    HistoricalFromIs(s, 0, |start|);
    assert (s.clients + since)[0..] == s.clients + since;
    IdsConcat(s.clients, since);
  }

  lemma AccountedOrder(s: State, left: seq<seq<NodeIdentity>>, start: seq<NodeIdentity>)
    requires Accounts(s.clients, s.exited, left, start)
    ensures var ids := Ids(HistoricalClients(s, |start|));
      multiset(ids) == multiset(start) && (ids == start <==> InTurn(start, left))
  {
    var since := Ids(s.exited[|s.clients| + |s.exited| - |start|..]);
    HistoricalIsAccounted(s, left, start);
    ArrangedPermutes(Ids(s.clients), since, left, start);
    ArrangedExactIff(Ids(s.clients), since, left, start);
  }

  lemma HistoricalOrder(x: Traced, back: nat)
    requires StartsKnown(x) && Started(x.s) && InWindow(x.s, back)
    ensures var ids, start :=
        Ids(HistoricalClients(x.s, RoundBack(x.s, back).clientsLen)), x.h.starts[Current(x.s).height - back];
      && multiset(ids) == multiset(start)
      && (ids == start <==> InTurn(start, x.h.left))
  {
    assert StartKnown(x, back);
    AccountedOrder(x.s, x.h.left, x.h.starts[Current(x.s).height - back]);
  }

  // For every round the ring still holds, the historical list is the starting list in some order.
  lemma HistoricalClientsArePermuted(c: Config, x: Traced, back: nat)
    requires ConfigOk(c) && Reachable(c, x) && Started(x.s) && InWindow(x.s, back)
    ensures |x.h.starts| == Current(x.s).height + 1
    ensures multiset(Ids(HistoricalClients(x.s, RoundBack(x.s, back).clientsLen)))
         == multiset(x.h.starts[Current(x.s).height - back])
  {
    ReachableInv(c, x);
    HistoricalOrder(x, back);
  }

  // It is the starting list itself exactly when whoever left had everybody behind leave in the same
  // compaction or a later one.
  lemma HistoricalPositionsExactIff(c: Config, x: Traced, back: nat)
    requires ConfigOk(c) && Reachable(c, x) && Started(x.s) && InWindow(x.s, back)
    ensures |x.h.starts| == Current(x.s).height + 1
    ensures var start := x.h.starts[Current(x.s).height - back];
      Ids(HistoricalClients(x.s, RoundBack(x.s, back).clientsLen)) == start <==> InTurn(start, x.h.left)
  {
    ReachableInv(c, x);
    HistoricalOrder(x, back);
  }

  // ------------------------------------------------------------------ places and seats

  lemma CountedOnce(ids: seq<NodeIdentity>)
    requires NoRepeats(multiset(ids))
    ensures Distinct(ids)
  {
    forall i, j | 0 <= i < j < |ids|
      ensures ids[i] != ids[j]
    {
      if ids[i] == ids[j] {
        RepeatCounts(ids, i, j);
      }
    }
  }

  lemma OnceInPart(
    live: seq<NodeIdentity>, earlier: seq<NodeIdentity>, gone: seq<NodeIdentity>, start: seq<NodeIdentity>)
    requires NoRepeats(multiset(live) + multiset(earlier + gone)) && multiset(live + gone) == multiset(start)
    ensures NoRepeats(multiset(start))
  {
    forall id
      ensures multiset(start)[id] <= 1
    {
      assert multiset(start)[id] == multiset(live)[id] + multiset(gone)[id];
      assert multiset(earlier + gone)[id] == multiset(earlier)[id] + multiset(gone)[id];
      assert (multiset(live) + multiset(earlier + gone))[id] <= 1;
    }
  }

  lemma StartIsDistinct(s: State, left: seq<seq<NodeIdentity>>, start: seq<NodeIdentity>)
    requires Accounts(s.clients, s.exited, left, start) && NoRepeats(Roster(s))
    ensures Distinct(start)
  {
    var cut := |s.clients| + |s.exited| - |start|;
    var before, since := s.exited[..cut], s.exited[cut..];
    assert s.exited == before + since;
    IdsConcat(before, since);
    ArrangedPermutes(Ids(s.clients), Ids(since), left, start);
    OnceInPart(Ids(s.clients), Ids(before), Ids(since), start);
    CountedOnce(start);
  }

  lemma SurvivorPlaces(s: State, left: seq<seq<NodeIdentity>>, start: seq<NodeIdentity>, i: nat)
    requires Accounts(s.clients, s.exited, left, start) && NoRepeats(Roster(s)) && i < |s.clients|
    ensures i < |start|
    ensures start[i] == s.clients[i].id <==> forall j :: 0 <= j <= i ==> start[j] in Ids(s.clients)
  {
    StartIsDistinct(s, left, start);
    assert Ids(s.clients)[i] == s.clients[i].id;
    PlaceIsKeptIff(start, left, i);
    forall j | 0 <= j <= i
      ensures start[j] in Ids(s.clients) <==> Turn(left, start[j]) == 0
    {
      AtTurnMembers(start, left, 0, start[j]);
    }
  }

  lemma KnownPlaces(x: Traced, back: nat, i: nat)
    requires StartsKnown(x) && NoRepeats(Roster(x.s)) && Started(x.s) && InWindow(x.s, back) && i < |x.s.clients|
    ensures i < |x.h.starts[Current(x.s).height - back]|
    ensures var start := x.h.starts[Current(x.s).height - back];
      start[i] == x.s.clients[i].id <==> forall j :: 0 <= j <= i ==> start[j] in Ids(x.s.clients)
  {
    assert StartKnown(x, back);
    SurvivorPlaces(x.s, x.h.left, x.h.starts[Current(x.s).height - back], i);
  }

  // A live client is at the place it had when a stored round started exactly when everybody up to that
  // place is still live.
  lemma PlaceIsOldPlaceIff(c: Config, x: Traced, back: nat, i: nat)
    requires ConfigOk(c) && Reachable(c, x) && Started(x.s) && InWindow(x.s, back) && i < |x.s.clients|
    ensures |x.h.starts| == Current(x.s).height + 1 && i < |x.h.starts[Current(x.s).height - back]|
    ensures var start := x.h.starts[Current(x.s).height - back];
      start[i] == x.s.clients[i].id <==> forall j :: 0 <= j <= i ==> start[j] in Ids(x.s.clients)
  {
    ReachableInv(c, x);
    KnownPlaces(x, back, i);
  }

  lemma FrontIsLive(s: State, left: seq<seq<NodeIdentity>>, start: seq<NodeIdentity>, i: nat)
    requires Accounts(s.clients, s.exited, left, start) && i < |start|
    requires forall j :: 0 <= j <= i ==> start[j] in Ids(s.clients)
    ensures i < |s.clients|
  {
    forall j | 0 <= j <= i
      ensures Turn(left, start[j]) == 0
    {
      AtTurnMembers(start, left, 0, start[j]);
    }
    FrontStays(start, left, i);
  }

  lemma KnownFront(x: Traced, back: nat, i: nat)
    requires StartsKnown(x) && Started(x.s) && InWindow(x.s, back)
    requires var start := x.h.starts[Current(x.s).height - back];
      i < |start| && forall j :: 0 <= j <= i ==> start[j] in Ids(x.s.clients)
    ensures i < |x.s.clients|
  {
    assert StartKnown(x, back);
    FrontIsLive(x.s, x.h.left, x.h.starts[Current(x.s).height - back], i);
  }

  lemma KnownPrevious(c: Config, x: Traced)
    requires Inv(c, x.s) && StartsKnown(x) && Current(x.s).height >= 1
    ensures |x.h.starts| == Current(x.s).height + 1 && Started(x.s) && InWindow(x.s, 1) && NoRepeats(Roster(x.s))
    ensures PreviousRound(x.s) == Some(RoundBack(x.s, 1)) && RoundBack(x.s, 1).witnesses != []
    ensures |x.h.starts[Current(x.s).height - 1]| == RoundBack(x.s, 1).clientsLen
  {
    PreviousRoundIsPrevious(c, x.s);
    assert InWindow(x.s, 1) && StartKnown(x, 1);
  }

  lemma PreviousStart(c: Config, x: Traced)
    requires ConfigOk(c) && Reachable(c, x) && Current(x.s).height >= 1
    ensures |x.h.starts| == Current(x.s).height + 1 && Started(x.s) && InWindow(x.s, 1) && StartsKnown(x)
    ensures NoRepeats(Roster(x.s))
    ensures PreviousRound(x.s) == Some(RoundBack(x.s, 1)) && RoundBack(x.s, 1).witnesses != []
    ensures |x.h.starts[Current(x.s).height - 1]| == RoundBack(x.s, 1).clientsLen
  {
    ReachableInv(c, x);
    KnownPrevious(c, x);
  }

  lemma PreviousIsStored(c: Config, x: Traced)
    requires ConfigOk(c) && Reachable(c, x) && Current(x.s).height >= 1
    ensures Started(x.s) && InWindow(x.s, 1)
  {
    PreviousStart(c, x);
  }

  lemma NamedPlaceIff(c: Config, x: Traced, id: NodeIdentity, i: nat)
    requires ConfigOk(c) && Reachable(c, x) && Current(x.s).height >= 1 && VerifyClient(id, i, x.s.clients)
    ensures |x.h.starts| == Current(x.s).height + 1 && i < |x.h.starts[Current(x.s).height - 1]|
    ensures var start := x.h.starts[Current(x.s).height - 1];
      start[i] == id <==> forall j :: 0 <= j <= i ==> start[j] in Ids(x.s.clients)
  {
    PreviousIsStored(c, x);
    PlaceIsOldPlaceIff(c, x, 1, i);
  }

  lemma IndictedPlace(c: Config, s: State, id: NodeIdentity, proof: CommitteeProof)
    requires Indicts(c, s, id, proof)
    ensures VerifyClient(id, proof.index, s.clients)
  {
  }

  // A check is answered for the client's own seat of the previous round exactly when everybody up to the
  // seat it names is still live; otherwise the client answers for somebody else's.
  lemma IndictedForOwnSeatIff(c: Config, x: Traced, id: NodeIdentity, proof: CommitteeProof)
    requires ConfigOk(c) && Reachable(c, x) && Current(x.s).height >= 1 && Indicts(c, x.s, id, proof)
    ensures |x.h.starts| == Current(x.s).height + 1 && proof.index < |x.h.starts[Current(x.s).height - 1]|
    ensures var start := x.h.starts[Current(x.s).height - 1];
      start[proof.index] == id <==> forall j :: 0 <= j <= proof.index ==> start[j] in Ids(x.s.clients)
  {
    IndictedPlace(c, x.s, id, proof);
    NamedPlaceIff(c, x, id, proof.index);
  }

  lemma QuorumIsDefined(c: Config, n: nat)
    requires n > 0
    ensures WitnessQuorum(c, n).Done?
  {
  }

  lemma IndictsIff(c: Config, s: State, id: NodeIdentity, i: nat, sel: Selection)
    requires PreviousRound(s).Some? && SelectionFor(c, PreviousRound(s).value) == Ok(sel)
    requires WitnessQuorum(c, |PreviousRound(s).value.witnesses|).Done?
    requires i < sel.total && sel.GetCommittee(c.sha256, i).committee == Trainer
    ensures var ws := PreviousRound(s).value.witnesses;
      Indicts(c, s, id, sel.GetCommittee(c.sha256, i)) <==>
        VerifyClient(id, i, s.clients) && Score(c, id, ws) < WitnessQuorum(c, |ws|).value
  {
  }

  // Everybody up to place i of the list is still there.
  ghost predicate StillThere(start: seq<NodeIdentity>, i: nat, clients: seq<Client>)
    requires i < |start|
  {
    forall j :: 0 <= j <= i ==> start[j] in Ids(clients)
  }

  lemma OwnPlaceIff(x: Traced, i: nat)
    requires StartsKnown(x) && NoRepeats(Roster(x.s)) && Started(x.s) && InWindow(x.s, 1)
    requires i < |x.h.starts[Current(x.s).height - 1]|
    ensures var start := x.h.starts[Current(x.s).height - 1];
      VerifyClient(start[i], i, x.s.clients) <==> StillThere(start, i, x.s.clients)
  {
    if i < |x.s.clients| {
      KnownPlaces(x, 1, i);
    } else if StillThere(x.h.starts[Current(x.s).height - 1], i, x.s.clients) {
      KnownFront(x, 1, i);
    }
  }

  // A trainer of the previous round for whom too few witnesses vouch can be convicted with the proof of the
  // seat it held exactly when everybody up to that seat is still there.
  lemma OwnSeatConvictsIff(c: Config, x: Traced, i: nat, sel: Selection)
    requires ConfigOk(c) && Reachable(c, x) && Current(x.s).height >= 1
    requires PreviousRound(x.s).Some? && SelectionFor(c, PreviousRound(x.s).value) == Ok(sel)
    requires i < sel.total && sel.GetCommittee(c.sha256, i).committee == Trainer
    ensures |x.h.starts| == Current(x.s).height + 1 && i < |x.h.starts[Current(x.s).height - 1]|
    ensures WitnessQuorum(c, |PreviousRound(x.s).value.witnesses|).Done?
    ensures var start, ws := x.h.starts[Current(x.s).height - 1], PreviousRound(x.s).value.witnesses;
      Indicts(c, x.s, start[i], sel.GetCommittee(c.sha256, i)) <==>
        Score(c, start[i], ws) < WitnessQuorum(c, |ws|).value && StillThere(start, i, x.s.clients)
  {
    PreviousStart(c, x);
    QuorumIsDefined(c, |RoundBack(x.s, 1).witnesses|);
    IndictsIff(c, x.s, x.h.starts[Current(x.s).height - 1][i], i, sel);
    OwnPlaceIff(x, i);
  }

  // ------------------------------------------------------------------ convictions reach the epoch's end

  lemma WarmupEndStates(c: Config, s: State, now: nat, seed: nat)
    requires ConfigOk(c) && Inv(c, s) && s.runState == Warmup
    requires TickWarmup(c, s, now, seed).Done? && TickWarmup(c, s, now, seed).value.1.EpochEnd?
    ensures forall x :: x in TickWarmup(c, s, now, seed).value.0.clients ==> x.state == Healthy
  {
    TickWarmupKeepsInv(c, s, now, seed);
    KeptAreHealthy(s.clients);
  }

  lemma CooldownEndStates(c: Config, s: State, now: nat)
    requires |s.clients| + |s.exited| <= SOLANA_MAX_NUM_CLIENTS
    requires TickCooldown(c, s, now).Done? && TickCooldown(c, s, now).value.1.EpochEnd?
    ensures forall x :: x in TickCooldown(c, s, now).value.0.clients ==> x.state == Healthy || x.state == Withdrawn
  {
    KeptAreHealthy(s.clients);
    LeaveEpochStates(c, SettleEpoch(c, s).value, now);
  }

  lemma LeaveEpochStates(c: Config, s: State, now: nat)
    requires LeaveEpoch(c, s, now).Done? && forall x :: x in s.clients ==> x.state == Healthy
    ensures forall x :: x in LeaveEpoch(c, s, now).value.clients ==> x.state == Healthy || x.state == Withdrawn
  {
    WithdrawKeepsIds(s.clients);
  }

  lemma EndStates(c: Config, s: State, op: Op, t: State, success: bool)
    requires ConfigOk(c) && Inv(c, s)
    requires Apply(c, s, op) == Done((t, TickReply(Ok(EpochEnd(success)))))
    ensures forall y :: y in t.clients ==> y.state == Healthy || y.state == Withdrawn
  {
    if s.runState == Warmup {
      WarmupEndStates(c, s, op.now, op.seed);
    } else if s.runState == Cooldown {
      CooldownEndStates(c, s, op.now);
    }
  }

  lemma ConvictionsAfter(c: Config, x: Traced, op: Op)
    requires ConfigOk(c) && TracedInv(c, x) && OpOk(op)
    ensures ConvictionsStand(Step(c, x, op))
  {
    StepKeepsTracedInv(c, x, op);
  }

  // At every epoch end nobody who was dropped or ejected is still among the clients, and everyone
  // ejected since the epoch entered Warmup is in the exit list, still marked ejected.
  lemma EpochEndSettlesConvictions(c: Config, x: Traced, op: Op, t: State, success: bool)
    requires ConfigOk(c) && Reachable(c, x) && OpOk(op)
    requires Apply(c, x.s, op) == Done((t, TickReply(Ok(EpochEnd(success)))))
    ensures forall y :: y in t.clients ==> y.state == Healthy || y.state == Withdrawn
    ensures Step(c, x, op).s == t && Step(c, x, op).h.convicted <= EjectedIds(t.exited)
  {
    ReachableInv(c, x);
    EndStates(c, x.s, op, t, success);
    ConvictionsAfter(c, x, op);
    assert EjectedIds(t.clients) == {};
  }

  // ------------------------------------------------------------------ active states

  ghost predicate StaysPut(s: State, t: State)
  {
    && t.lastStep == s.lastStep && t.step == s.step && (s.pendingPause ==> t.pendingPause)
    && (t.runState == s.runState || (s.runState == RoundTrain && t.runState == RoundWitness))
  }

  lemma ReportsStayPut(c: Config, s: State, op: Op)
    requires (op.WarmupWitness? || op.SendWitness?) && IsActive(s.runState)
    ensures StaysPut(s, After(c, s, op))
  {
  }

  lemma RequestsStayPut(c: Config, s: State, op: Op)
    requires (op.HealthCheck? || op.Withdraw? || op.Eject? || op.Pause? || op.Resume?) && IsActive(s.runState)
    ensures StaysPut(s, After(c, s, op))
  {
  }

  // What an operation other than a tick leaves alone while the run is active.
  lemma OnlyTicksAdvance(c: Config, s: State, op: Op)
    requires !op.Tick? && IsActive(s.runState)
    ensures StaysPut(s, After(c, s, op))
  {
    if op.WarmupWitness? || op.SendWitness? {
      ReportsStayPut(c, s, op);
    } else {
      RequestsStayPut(c, s, op);
    }
  }

  // How a tick moves an active run.
  ghost predicate TickMoves(s: State, t: State, now: nat)
  {
    || t == s
    || (s.runState == RoundTrain && t == s.(stateStart := now, runState := RoundWitness))
    || (s.runState == RoundWitness && t.step == s.step + 1 && t.pendingPause == s.pendingPause
        && (t.runState == Cooldown || (t.runState == RoundTrain && !s.pendingPause))
        && t.lastStep == (if s.lastStep == 0 && t.lastStep != 0 then s.step + 3 else s.lastStep)
        && (t.runState == RoundTrain ==> t.lastStep != t.step || t.lastStep == 0))
    || (s.runState == Cooldown && !IsActive(t.runState) && (s.pendingPause ==> t.runState == Paused))
  }

  lemma TrainTickMoves(c: Config, s: State, now: nat)
    requires s.runState == RoundTrain
    ensures TickRoundTrain(c, s, now).Done? && TickMoves(s, TickRoundTrain(c, s, now).value.0, now)
  {
  }

  lemma StartMoves(c: Config, s: State, now: nat, seed: nat)
    requires s.runState == RoundWitness
    ensures var o := StartRoundTrain(c, s, now, seed, 0);
      o.Done? && o.value.runState == RoundTrain && o.value.step == s.step && o.value.lastStep == s.lastStep &&
      o.value.pendingPause == s.pendingPause
    ensures var o := StartCooldown(s, now);
      o.Done? && o.value.runState == Cooldown && o.value.step == s.step && o.value.lastStep == s.lastStep &&
      o.value.pendingPause == s.pendingPause
  {
  }

  lemma LeaveRoundMoves(c: Config, s: State, n: nat, now: nat, seed: nat)
    requires s.runState == RoundWitness && LeaveRound(c, s, n, now, seed).Done?
    ensures var t := LeaveRound(c, s, n, now, seed).value;
      && t.step == s.step && t.pendingPause == s.pendingPause
      && (t.runState == Cooldown || (t.runState == RoundTrain && !s.pendingPause))
      && t.lastStep == (if s.lastStep == 0 && t.lastStep != 0 then s.step + 2 else s.lastStep)
      && (t.runState == RoundTrain ==> t.lastStep != t.step || t.lastStep == 0)
  {
    StartMoves(c, if n == 0 then WithdrawAll(s) else NoticeDeadline(c, s, now), now, seed);
  }

  lemma WitnessTickMoves(c: Config, s: State, now: nat, seed: nat)
    requires s.runState == RoundWitness && TickRoundWitness(c, s, now, seed).Done?
    ensures TickMoves(s, TickRoundWitness(c, s, now, seed).value.0, now)
  {
    if TimedOut(s, now, c.roundWitnessTime) {
      LeaveRoundMoves(c, CloseRound(s).value, |Current(s).witnesses|, now, seed);
    }
  }

  lemma CooldownTickMoves(c: Config, s: State, now: nat)
    requires s.runState == Cooldown && TickCooldown(c, s, now).Done?
    ensures TickMoves(s, TickCooldown(c, s, now).value.0, now)
  {
  }

  lemma ActiveTickMoves(c: Config, s: State, pending: Option<seq<NodeIdentity>>, now: nat, seed: nat)
    requires IsActive(s.runState) && TickStep(c, s, pending, now, seed).Done?
    ensures TickMoves(s, TickStep(c, s, pending, now, seed).value.0, now)
  {
    match s.runState
    case RoundTrain =>
      TrainTickMoves(c, s, now);
      TrainTickIs(c, s, pending, now, seed);
    case RoundWitness =>
      WitnessTickMoves(c, s, now, seed);
      WitnessTickIs(c, s, pending, now, seed);
    case Cooldown =>
      CooldownTickMoves(c, s, now);
      CooldownTickIs(c, s, pending, now, seed);
  }

  lemma ActiveTick(c: Config, s: State, op: Op)
    requires op.Tick? && IsActive(s.runState)
    ensures TickMoves(s, After(c, s, op), op.now)
  {
    if TickStep(c, s, op.pending, op.now, op.seed).Done? {
      ActiveTickMoves(c, s, op.pending, op.now, op.seed);
    }
  }

  // A round that has run out of time is followed by another exactly when enough clients stay, enough witnesses
  // reported, steps are left in the run and in the epoch, and no pause is pending. The witnesses are enough when
  // there is one of an open number, all of one or two, or two thirds, rounded down, of three or more.
  lemma RoundContinuesIff(c: Config, s: State, now: nat, seed: nat)
    requires ConfigOk(c) && Inv(c, s) && s.runState == RoundWitness
    requires now != s.stateStart && now - s.stateStart >= c.roundWitnessTime
    ensures TickRoundWitness(c, s, now, seed).Done?
    ensures var t, reports, nodes := TickRoundWitness(c, s, now, seed).value.0, |Current(s).witnesses|, c.witnessNodes;
      && (t.runState == RoundTrain || t.runState == Cooldown)
      && (t.runState == RoundTrain <==>
           && c.minClients <= |Kept(s.clients)|
           && reports > 0 && (0 < nodes <= 2 ==> reports >= nodes) && (nodes > 2 ==> 3 * (reports + 1) > 2 * nodes)
           && s.step + 1 < c.totalSteps && s.step + 1 != s.lastStep
           && !s.pendingPause)
  {
    BooksAre(c, s);
    LeaveRoundIs(c, s, now, seed);
    RoundTick(c, s, BooksDone(s), RoundLeft(c, s, now, seed), now, seed);
  }

  // ------------------------------------------------------------------ pausing

  lemma PendingPauseStep(c: Config, s: State, op: Op)
    requires s.pendingPause && IsActive(s.runState)
    ensures var t := After(c, s, op);
      || (t.pendingPause && IsActive(t.runState) && !StartsRound(s, t))
      || t.runState == Paused
  {
    if op.Tick? {
      ActiveTick(c, s, op);
    } else {
      OnlyTicksAdvance(c, s, op);
    }
  }

  // Still waiting for the epoch to wind down; no round has been started since the request.
  ghost predicate WindingDown(x: Traced, y: Traced)
  {
    y.s.pendingPause && IsActive(y.s.runState) && y.h.log == x.h.log
  }

  lemma WindingDownStep(c: Config, x: Traced, y: Traced, op: Op)
    requires WindingDown(x, y)
    ensures WindingDown(x, Step(c, y, op)) || Step(c, y, op).s.runState == Paused
  {
    PendingPauseStep(c, y.s, op);
  }

  lemma WindingDownNext(c: Config, xs: seq<Traced>, ops: seq<Op>, i: nat, k: nat)
    requires IsRun(c, xs, ops) && i <= k < |ops| && WindingDown(xs[i], xs[k])
    ensures WindingDown(xs[i], xs[k + 1]) || xs[k + 1].s.runState == Paused
  {
    RunNext(c, xs, ops, k);
    WindingDownStep(c, xs[i], xs[k], ops[k]);
  }

  lemma PendingIsActive(c: Config, xs: seq<Traced>, ops: seq<Op>, i: nat)
    requires ConfigOk(c) && IsRun(c, xs, ops) && FromInit(c, xs[0]) && i < |xs| && xs[i].s.pendingPause
    ensures WindingDown(xs[i], xs[i])
  {
    RunKeepsTracedInv(c, xs, ops, i);
  }

  // In every run, after a pause request no further round starts before the run is paused, and the
  // first state outside the active ones is Paused: at step k, unless the run ends before that.
  lemma PauseIsHonoured(c: Config, xs: seq<Traced>, ops: seq<Op>, i: nat) returns (k: nat)
    requires ConfigOk(c) && IsRun(c, xs, ops) && FromInit(c, xs[0]) && i < |xs| && xs[i].s.pendingPause
    ensures i <= k < |xs|
    ensures forall j :: i <= j < k ==> WindingDown(xs[i], xs[j])
    ensures xs[k].s.runState == Paused || (k == |ops| && WindingDown(xs[i], xs[k]))
  {
    PendingIsActive(c, xs, ops, i);
    k := i;
    while k < |ops| && xs[k].s.runState != Paused
      invariant i <= k < |xs|
      invariant forall j :: i <= j < k ==> WindingDown(xs[i], xs[j])
      invariant xs[k].s.runState == Paused || WindingDown(xs[i], xs[k])
    {
      WindingDownNext(c, xs, ops, i, k);
      k := k + 1;
    }
  }

  // ------------------------------------------------------------------ the epoch's deadline

  // The epoch's last step is fixed at `last` and has not been passed.
  predicate Bounded(s: State, last: nat)
  {
    && s.lastStep == last && IsActive(s.runState)
    && (InRound(s.runState) ==> s.step < last) && (s.runState == Cooldown ==> s.step <= last)
  }

  lemma BoundedStep(c: Config, s: State, op: Op, last: nat)
    requires Bounded(s, last) && last != 0
    ensures var t := After(c, s, op); IsActive(t.runState) ==> Bounded(t, last)
  {
    if op.Tick? {
      ActiveTick(c, s, op);
    } else {
      OnlyTicksAdvance(c, s, op);
    }
  }

  lemma BoundedNext(c: Config, xs: seq<Traced>, ops: seq<Op>, k: nat, last: nat)
    requires IsRun(c, xs, ops) && k < |ops| && Bounded(xs[k].s, last) && last != 0 && IsActive(xs[k + 1].s.runState)
    ensures Bounded(xs[k + 1].s, last)
  {
    RunNext(c, xs, ops, k);
    BoundedStep(c, xs[k].s, ops[k], last);
  }

  lemma {:induction false} BoundedRun(c: Config, xs: seq<Traced>, ops: seq<Op>, i: nat, k: nat, last: nat)
    requires IsRun(c, xs, ops) && i <= k < |xs| && Bounded(xs[i].s, last) && last != 0
    requires forall j :: i <= j <= k ==> IsActive(xs[j].s.runState)
    ensures Bounded(xs[k].s, last)
    decreases k
  {
    if k > i {
      BoundedRun(c, xs, ops, i, k - 1, last);
      BoundedNext(c, xs, ops, k - 1, last);
    }
  }

  lemma DeadlineNoticed(c: Config, s: State, op: Op)
    requires Inv(c, s) && IsActive(s.runState) && s.lastStep == 0 && After(c, s, op).lastStep != 0
    ensures s.runState == RoundWitness && IsActive(After(c, s, op).runState)
    ensures Bounded(After(c, s, op), s.step + 3)
  {
    if op.Tick? {
      ActiveTick(c, s, op);
    } else {
      OnlyTicksAdvance(c, s, op);
    }
  }

  lemma LogLength(c: Config, x: Traced)
    requires TracedInv(c, x)
    ensures |x.h.log| == RoundsSoFar(x.s)
  {
  }

  // In every run, from the tick that notices the deadline on, at most two more rounds are started
  // before the epoch is over.
  lemma AtMostTwoMoreRounds(c: Config, xs: seq<Traced>, ops: seq<Op>, i: nat, k: nat)
    requires ConfigOk(c) && IsRun(c, xs, ops) && FromInit(c, xs[0]) && i < k < |xs|
    requires xs[i].s.lastStep == 0 && xs[i + 1].s.lastStep != 0
    requires forall j :: i <= j <= k ==> IsActive(xs[j].s.runState)
    ensures |xs[k].h.log| <= |xs[i].h.log| + 2
  {
    RunKeepsTracedInv(c, xs, ops, i);
    LogLength(c, xs[i]);
    RunNext(c, xs, ops, i);
    DeadlineNoticed(c, xs[i].s, ops[i]);
    BoundedRun(c, xs, ops, i + 1, k, xs[i].s.step + 3);
    RunKeepsTracedInv(c, xs, ops, k);
    LogLength(c, xs[k]);
  }
}
