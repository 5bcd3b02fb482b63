/** Runs that reach the cases in which a property one might expect does not hold. */
module CoordinatorExamples {
  import opened Wrappers
  import opened Hashing
  import opened SwapOrNot
  import opened BloomFilters
  import opened CommitteeDraw
  import opened CoordinatorSpec
  import opened CoordinatorInvariants
  import opened CoordinatorSteps
  import opened CoordinatorHealth
  import opened CoordinatorEffects
  import opened CoordinatorRuns
  import opened CoordinatorTheorems
  import opened DataSelection
  import opened DataRuns
  import opened AuditSelection
  import opened AuditRuns

  const ALICE := NodeIdentity([1])
  const BOB := NodeIdentity([2])
  const CAROL := NodeIdentity([3])

  function SmallConfig(sha: Sha256, fnv: Fnv, percent: nat): (c: Config)
    ensures ConfigOk(c)
  {
    Config(1000, 1, 1, 1, 0, 2000, 10, 1, 1, 0, 1, 1, percent, 1, 1, tokens => 1, sha, fnv)
  }

  const EMPTY_BLOOM: Bloom := RawBloom([0], [false])

  function Zeros(): (d: Digest) { seq(32, i => 0) }

  // ------------------------------------------------------------------ taking steps

  lemma Go(c: Config, x: Traced, op: Op, t: State) returns (y: Traced)
    requires ConfigOk(c) && Reachable(c, x) && OpOk(op) && After(c, x.s, op) == t
    ensures Reachable(c, y) && y.s == t && y.h == Observe(c, x.h, x.s, op, t)
  {
    ReachableStep(c, x, op);
    y := Step(c, x, op);
  }

  // A step with which somebody leaves and no round starts.
  lemma GoLeaving(c: Config, x: Traced, op: Op, t: State, gone: seq<NodeIdentity>) returns (y: Traced)
    requires ConfigOk(c) && Reachable(c, x) && OpOk(op) && After(c, x.s, op) == t
    requires t.runState != Warmup && t.runState != RoundTrain
    requires |x.s.exited| < |t.exited| && Ids(t.exited[|x.s.exited|..]) == gone
    ensures Reachable(c, y) && y.s == t && y.h.left == x.h.left + [gone] && y.h.starts == x.h.starts
  {
    y := Go(c, x, op, t);
  }

  // A step that starts a round.
  lemma GoStarting(c: Config, x: Traced, op: Op, t: State) returns (y: Traced)
    requires ConfigOk(c) && Reachable(c, x) && OpOk(op) && After(c, x.s, op) == t
    requires x.s.runState != RoundTrain && t.runState == RoundTrain
    ensures Reachable(c, y) && y.s == t
    ensures y.h.left == LeftAfter(x.h.left, x.s, t) && y.h.starts == x.h.starts + [Ids(t.clients)]
  {
    y := Go(c, x, op, t);
  }

  function Joined(clients: seq<Client>): (s: State)
  {
    State(Warmup, 100, false, 0, 1, 0, ZERO_RING, 0, clients, [], 1, 0, 100, true, false)
  }

  function Waiting(): (s: State)
  {
    State(WaitingForMembers, 0, false, 0, 1, 0, ZERO_RING, 0, [], [], 0, 0, 0, true, false)
  }

  lemma EpochOpens(c: Config, ids: seq<NodeIdentity>)
    requires c.initMinClients <= |ids| <= 256 && c.waitingForMembersExtraTime <= 100
    ensures After(c, Waiting(), Tick(Some(ids), 100, 0)) == Joined(NewClients(ids))
  {
    assert Admitted(ids) == ids;
    TickWaitingCases(c, Waiting(), Some(ids), 100);
    WaitingTickIs(c, Waiting(), Some(ids), 100, 0);
  }

  // Members join a run that waits for them.
  lemma Join(c: Config, ids: seq<NodeIdentity>) returns (x: Traced)
    requires ConfigOk(c) && c.initMinClients <= |ids| <= 256 && c.waitingForMembersExtraTime <= 100 && c.totalSteps > 1
    requires forall i, j :: 0 <= i < j < |ids| ==> ids[i] != ids[j]
    ensures Reachable(c, x) && x.s == Joined(NewClients(ids)) && x.h.left == [] && x.h.starts == []
  {
    var x0 := Begin(Waiting());
    assert IsRun(c, [x0], []) && FromInit(c, [x0][0]) && [x0][0] == x0;
    EpochOpens(c, ids);
    x := Go(c, x0, Tick(Some(ids), 100, 0), Joined(NewClients(ids)));
  }

  // A member who is pending twice is admitted twice.
  lemma AdmittedTwiceExample(sha: Sha256, fnv: Fnv) returns (c: Config, s: State, pending: Option<seq<NodeIdentity>>)
    ensures ConfigOk(c) && Init(c, s) && Inv(c, s) && !Inv(c, After(c, s, Tick(pending, 100, 0)))
    ensures Ids(After(c, s, Tick(pending, 100, 0)).clients) == [ALICE, ALICE]
  {
    c, s, pending := SmallConfig(sha, fnv, 0), Waiting(), Some([ALICE, ALICE]);
    InitInv(c, s);
    TickKeepsInvIff(c, s, pending, 100, 0);
    EpochOpens(c, [ALICE, ALICE]);
    assert Admitted(pending.value)[0] == Admitted(pending.value)[1];
  }

  // ------------------------------------------------------------------ a stale warmup witness

  function Claim(index: nat): (w: Witness)
  {
    Witness(WitnessProof(0, index, ToSmall(true)), EMPTY_BLOOM, EMPTY_BLOOM, Zeros())
  }

  const PAIR := [Client(ALICE, Healthy, 0), Client(BOB, Healthy, 0)]

  function Claimed(): (r: Ring) { [Round([Claim(1)], 0, 0, 0, 0, 0), ZERO_ROUND, ZERO_ROUND, ZERO_ROUND] }

  lemma BobClaims(c: Config)
    requires c.witnessNodes == 0
    ensures After(c, Joined(PAIR), WarmupWitness(BOB, Claim(1), 101, 0)) == Joined(PAIR).(rounds := Claimed())
  {
    assert [] + [Claim(1)] == [Claim(1)];
    assert PushWitness(Joined(PAIR), Claim(1)).rounds == Claimed();
  }

  lemma BobIsGone(c: Config, s: State)
    requires c.warmupTime == 1000 && c.minClients == 1 && s.exited == []
    requires s == Joined([PAIR[0], PAIR[1].(state := Withdrawn)]).(rounds := Claimed())
    ensures After(c, s, Tick(None, 102, 0)) == s.(clients := [PAIR[0]], exited := [PAIR[1].(state := Withdrawn)])
  {
    MoveTwo(PAIR[0], PAIR[1].(state := Withdrawn), 0);
    WarmupTickIs(c, s, None, 102, 0);
  }

  // Alice and Bob join, Bob witnesses from place 1 and withdraws, the next tick compacts the list, and Alice's
  // warmup witness aborts on Bob's index.
  lemma WarmupWitnessAbortExample(sha: Sha256, fnv: Fnv) returns (c: Config, x: Traced, op: Op)
    ensures ConfigOk(c) && Reachable(c, x) && OpOk(op) && Apply(c, x.s, op).Panic?
  {
    c := SmallConfig(sha, fnv, 0);
    var x1 := Join(c, [ALICE, BOB]);
    assert NewClients([ALICE, BOB]) == PAIR;
    BobClaims(c);
    var x2 := Go(c, x1, WarmupWitness(BOB, Claim(1), 101, 0), Joined(PAIR).(rounds := Claimed()));
    var s3 := Joined([PAIR[0], PAIR[1].(state := Withdrawn)]).(rounds := Claimed());
    var x3 := Go(c, x2, Withdraw(1), s3);
    BobIsGone(c, s3);
    x := Go(c, x3, Tick(None, 102, 0), s3.(clients := [PAIR[0]], exited := [PAIR[1].(state := Withdrawn)]));
    op := WarmupWitness(ALICE, Claim(0), 103, 0);
  }

  // ------------------------------------------------------------------ a permuted historical list

  const TRIO := [Client(ALICE, Healthy, 0), Client(BOB, Healthy, 0), Client(CAROL, Healthy, 0)]
  const IDS := [ALICE, BOB, CAROL]

  function RingOf(r0: Round, r1: Round, r2: Round): (r: Ring) { [r0, r1, r2, ZERO_ROUND] }

  // Round `height` of the run, started by n clients, with its witnesses.
  function RoundOf(height: nat, n: nat, ws: seq<Witness>): (r: Round) { Round(ws, height, 0, height, n, 0) }

  function Training(rounds: Ring, head: Head, clients: seq<Client>, exited: seq<Client>, at: nat): (s: State)
  {
    State(RoundTrain, at, false, 0, 1 + head, 0, rounds, head, clients, exited, 1, 0, 100, head == 0, false)
  }

  // The three members join and start the first round.
  lemma FirstRound(sha: Sha256, fnv: Fnv, percent: nat, batch: nat, c: Config) returns (x: Traced)
    requires batch > 0 && c == SmallConfig(sha, fnv, percent).(globalBatchSizeStart := batch, globalBatchSizeEnd := batch)
    ensures Reachable(c, x) && x.h.left == [] && x.h.starts == [IDS]
    ensures x.s == Training(RingOf(RoundOf(0, 3, []), ZERO_ROUND, ZERO_ROUND), 0, TRIO, [], 1100)
  {
    var x1 := Join(c, IDS);
    assert NewClients(IDS) == TRIO && Ids(TRIO) == IDS;
    WarmupEnds(c);
    x := GoStarting(c, x1, Tick(None, 1100, 0), Training(RingOf(RoundOf(0, 3, []), ZERO_ROUND, ZERO_ROUND), 0, TRIO, [], 1100));
  }

  lemma WarmupEnds(c: Config)
    requires c.warmupTime == 1000 && c.minClients == 1
    ensures After(c, Joined(TRIO), Tick(None, 1100, 0)) ==
      Training(RingOf(RoundOf(0, 3, []), ZERO_ROUND, ZERO_ROUND), 0, TRIO, [], 1100)
  {
    assert ZERO_RING[0 := RoundOf(0, 3, [])] == RingOf(RoundOf(0, 3, []), ZERO_ROUND, ZERO_ROUND);
  }

  lemma TrainingEnds(c: Config, s: State, now: nat)
    requires c.maxRoundTrainTime == 1 && s.runState == RoundTrain && s.stateStart < now
    ensures After(c, s, Tick(None, now, 0)) == s.(stateStart := now, runState := RoundWitness)
  {
  }

  lemma MoveThree(a: Client, b: Client, c: Client, height: nat)
    ensures Kept([a, b, c]) == Kept([a, b]) + if c.state == Healthy then [c] else []
    ensures Leaving([a, b, c], height) == Leaving([a, b], height) + if c.state == Healthy then [] else [c.(exitedHeight := height)]
  {
    assert [a, b, c][..2] == [a, b];
  }

  lemma MoveTwo(a: Client, b: Client, height: nat)
    ensures Kept([a, b]) == (if a.state == Healthy then [a] else []) + if b.state == Healthy then [b] else []
    ensures Leaving([a, b], height) ==
      (if a.state == Healthy then [] else [a.(exitedHeight := height)])
      + if b.state == Healthy then [] else [b.(exitedHeight := height)]
  {
    assert [a, b][..1] == [a] && [a][..0] == [];
    assert Kept([a]) == [] + if a.state == Healthy then [a] else [];
    assert Leaving([a], height) == [] + if a.state == Healthy then [] else [a.(exitedHeight := height)];
  }

  lemma WithdrawTwo(a: Client, b: Client)
    requires a.state == Healthy && b.state == Healthy
    ensures WithdrawnClients([a, b]) == [a.(state := Withdrawn), b.(state := Withdrawn)]
  {
    WithdrawKeepsIds([a, b]);
  }

  const GOING := [TRIO[0].(state := Withdrawn), TRIO[1].(state := Withdrawn), TRIO[2].(state := Withdrawn)]

  function FirstRing(): (r: Ring) { RingOf(RoundOf(0, 3, []), ZERO_ROUND, ZERO_ROUND) }

  // During the first round Carol asked to leave.
  function CarolGoing(): (s: State)
  {
    Training(FirstRing(), 0, [TRIO[0], TRIO[1], GOING[2]], [], 1101).(runState := RoundWitness)
  }

  function CarolGone(): (s: State)
  {
    State(Cooldown, 1102, false, 0, 2, 0, FirstRing(), 0, GOING[..2], GOING[2..], 1, 0, 100, false, false)
  }

  function EverybodyGone(): (s: State)
  {
    State(WaitingForMembers, 1103, false, 1, 2, 1, FirstRing(), 0, [], GOING[2..] + GOING[..2], 1, 0, 100, false, false)
  }

  lemma CloseWith(s: State, kept: seq<Client>, gone: seq<Client>)
    requires Kept(s.clients) == kept && Leaving(s.clients, Current(s).height) == gone && |s.exited + gone| <= 256
    ensures CloseRound(s) ==
      Done(s.(firstRound := false, step := s.step + 1, clients := kept, exited := s.exited + gone))
  {
  }

  // Carol has left the list.
  function CarolLeft(): (s: State)
  {
    CarolGoing().(firstRound := false, step := 2, clients := [TRIO[0], TRIO[1]], exited := GOING[2..])
  }

  lemma CarolLeaves()
    ensures CloseRound(CarolGoing()) == Done(CarolLeft())
  {
    var s := CarolGoing();
    MoveThree(TRIO[0], TRIO[1], GOING[2], 0);
    MoveTwo(TRIO[0], TRIO[1], 0);
    assert s.exited + [GOING[2]] == GOING[2..];
    CloseWith(s, [TRIO[0], TRIO[1]], [GOING[2]]);
  }

  lemma OthersWithdraw(c: Config)
    ensures LeaveRound(c, CarolLeft(), 0, 1102, 0) == Done(CarolGone())
  {
    WithdrawTwo(TRIO[0], TRIO[1]);
    assert GOING[..2] == [GOING[0], GOING[1]] && FirstRing()[0 := RoundOf(0, 3, [])] == FirstRing();
  }

  // The round goes by without a witness, so everybody else is withdrawn.
  lemma NobodyWitnesses(c: Config)
    requires c.roundWitnessTime == 1
    ensures After(c, CarolGoing(), Tick(None, 1102, 0)) == CarolGone()
  {
    CarolLeaves();
    OthersWithdraw(c);
    WitnessTickIs(c, CarolGoing(), None, 1102, 0);
  }

  lemma EverybodyLeaves(c: Config)
    requires c.cooldownTime == 1 && c.totalSteps == 10 && c.globalBatchSizeWarmupTokens == 0 && c.globalBatchSizeEnd == 1
    ensures After(c, CarolGone(), Tick(None, 1103, 0)) == EverybodyGone()
  {
    assert GOING[..2] == [GOING[0], GOING[1]];
    MoveTwo(GOING[0], GOING[1], 0);
    CooldownTickIs(c, CarolGone(), None, 1103, 0);
  }

  lemma CarolWantsToLeave(sha: Sha256, fnv: Fnv, c: Config) returns (x: Traced)
    requires c == SmallConfig(sha, fnv, 0)
    ensures Reachable(c, x) && x.h.left == [] && x.h.starts == [IDS] && x.s == CarolGoing()
  {
    var x1 := FirstRound(sha, fnv, 0, 1, c);
    var s2 := x1.s.(clients := [TRIO[0], TRIO[1], GOING[2]]);
    var x2 := Go(c, x1, Withdraw(2), s2);
    TrainingEnds(c, s2, 1101);
    x := Go(c, x2, Tick(None, 1101, 0), CarolGoing());
  }

  lemma TwoCompactions(c: Config, x: Traced) returns (y: Traced)
    requires ConfigOk(c) && Reachable(c, x) && x.s == CarolGoing() && x.h.left == []
    requires c.roundWitnessTime == 1 && c.cooldownTime == 1 && c.totalSteps == 10
    requires c.globalBatchSizeWarmupTokens == 0 && c.globalBatchSizeEnd == 1
    ensures Reachable(c, y) && y.s == EverybodyGone() && y.h.left == [[CAROL], [ALICE, BOB]] && y.h.starts == x.h.starts
  {
    NobodyWitnesses(c);
    ExitIds();
    var z := GoLeaving(c, x, Tick(None, 1102, 0), CarolGone(), [CAROL]);
    EverybodyLeaves(c);
    y := GoLeaving(c, z, Tick(None, 1103, 0), EverybodyGone(), [ALICE, BOB]);
  }

  lemma ExitIds()
    ensures Ids(CarolGone().exited[0..]) == [CAROL] && Ids(EverybodyGone().exited[1..]) == [ALICE, BOB]
    ensures |CarolGone().exited| == 1 && Ids(EverybodyGone().exited) == [CAROL, ALICE, BOB]
  {
  }

  // Carol leaves with the first compaction, Alice and Bob with the second. Both times the leavers are the
  // tail of the list, and both stamp the same height, yet the historical list has Carol in front.
  lemma HistoricalPositionsExample(sha: Sha256, fnv: Fnv) returns (c: Config, x: Traced)
    ensures ConfigOk(c) && Reachable(c, x) && Started(x.s) && InWindow(x.s, 0)
    ensures RoundBack(x.s, 0).clientsLen == 3 && x.h.starts == [[ALICE, BOB, CAROL]]
    ensures Ids(HistoricalClients(x.s, 3)) == [CAROL, ALICE, BOB]
    ensures x.h.left == [[CAROL], [ALICE, BOB]]
  {
    c := SmallConfig(sha, fnv, 0);
    var x1 := CarolWantsToLeave(sha, fnv, c);
    x := TwoCompactions(c, x1);
    ExitIds();
    AllGone(x.s);
  }

  lemma AllGone(s: State)
    requires s.clients == [] && |s.exited| == 3
    ensures HistoricalClients(s, 3) == s.exited
  {
    assert HistoricalClient(s, 0, 3) == Some(s.exited[0]);
    assert HistoricalClient(s, 1, 3) == Some(s.exited[1]);
    assert HistoricalClient(s, 2, 3) == Some(s.exited[2]);
    assert HistoricalFrom(s, 3, 3) == [];
    assert HistoricalFrom(s, 2, 3) == [s.exited[2]];
    assert HistoricalFrom(s, 1, 3) == [s.exited[1], s.exited[2]];
  }

  // ------------------------------------------------------------------ witnessed rounds

  function Draw(c: Config): (sel: Selection)
  {
    Selection(0, 3 * c.verificationPercent / 100, 3, 0, c.sha256(ToLe(0, 8)))
  }

  // Bob's report, which vouches for nobody.
  function Report(c: Config): (w: Witness)
  {
    Witness(Draw(c).GetWitness(c.sha256, 1), EMPTY_BLOOM, EMPTY_BLOOM, Zeros())
  }

  lemma DrawIsMade(c: Config, height: nat, ws: seq<Witness>)
    requires c.witnessNodes == 0 && c.verificationPercent <= 100
    ensures SelectionFor(c, RoundOf(height, 3, ws)) == Ok(Draw(c))
  {
  }

  lemma BobReports(c: Config, s: State, now: nat)
    requires c.witnessNodes == 0 && c.verificationPercent <= 100 && s.runState == RoundTrain
    requires |s.clients| == 3 && s.clients[1].id == BOB && Current(s) == RoundOf(s.roundsHead, 3, [])
    ensures After(c, s, SendWitness(BOB, Report(c), now)) ==
      s.(rounds := s.rounds[s.roundsHead := RoundOf(s.roundsHead, 3, [Report(c)])])
  {
    DrawIsMade(c, s.roundsHead, []);
    assert VerifyWitnessForClient(c, Draw(c), BOB, Report(c).proof, s.clients) == Done(true);
    assert Report(c).proof.position < 3 && !Report(c).proof.elected.IsFalse();
    assert [] + [Report(c)] == [Report(c)];
    assert PushWitness(s, Report(c)).rounds == s.rounds[s.roundsHead := RoundOf(s.roundsHead, 3, [Report(c)])];
  }

  // Bob's report is stored with the round.
  lemma WithReport(c: Config, x: Traced, now: nat) returns (y: Traced, w: Witness)
    requires ConfigOk(c) && Reachable(c, x) && c.witnessNodes == 0 && c.verificationPercent <= 100
    requires x.s.runState == RoundTrain
    requires |x.s.clients| == 3 && x.s.clients[1].id == BOB && Current(x.s) == RoundOf(x.s.roundsHead, 3, [])
    ensures Reachable(c, y) && y.h == x.h && w.participantBloom == EMPTY_BLOOM
    ensures y.s == x.s.(rounds := x.s.rounds[x.s.roundsHead := RoundOf(x.s.roundsHead, 3, [w])])
  {
    w := Report(c);
    BobReports(c, x.s, now);
    y := Go(c, x, SendWitness(BOB, w, now), After(c, x.s, SendWitness(BOB, w, now)));
  }

  lemma LeaveForNext(c: Config, s: State, now: nat)
    requires c.epochTime == 2000 && c.totalSteps == 10 && c.minClients == 1 && c.witnessNodes == 0
    requires c.globalBatchSizeWarmupTokens == 0 && c.globalBatchSizeEnd == 1
    requires s.runState == RoundWitness && now < 2100 && s.epochStart == 100 && s.lastStep == 0 && !s.firstRound
    requires s.roundsHead < 2 && s.step < 10 && !s.pendingPause && s.clients != []
    requires Current(s).height == s.roundsHead == Current(s).dataIndex
    ensures LeaveRound(c, s, 1, now, 0) ==
      Done(s.(rounds := s.rounds[s.roundsHead + 1 := RoundOf(s.roundsHead + 1, |s.clients|, [])],
              roundsHead := s.roundsHead + 1, stateStart := now, runState := RoundTrain))
  {
    assert WitnessQuorum(c, 1) == Done(1);
  }

  // A witnessed round is followed by the next one with those who stay.
  lemma NextRound(c: Config, s: State, now: nat, w: Witness, kept: seq<Client>, gone: seq<Client>)
    requires c.roundWitnessTime == 1 && c.epochTime == 2000 && c.totalSteps == 10 && c.minClients == 1
    requires c.witnessNodes == 0 && c.globalBatchSizeWarmupTokens == 0 && c.globalBatchSizeEnd == 1
    requires s.runState == RoundWitness && s.stateStart < now < 2100 && s.epochStart == 100 && s.lastStep == 0
    requires s.roundsHead < 2 && s.step == 1 + s.roundsHead && !s.pendingPause
    requires Current(s) == RoundOf(s.roundsHead, 3, [w])
    requires Kept(s.clients) == kept && Leaving(s.clients, s.roundsHead) == gone
    requires 1 <= |kept| && |s.exited + gone| <= 256
    ensures After(c, s, Tick(None, now, 0)) ==
      s.(firstRound := false, step := s.step + 1, clients := kept, exited := s.exited + gone,
         rounds := s.rounds[s.roundsHead + 1 := RoundOf(s.roundsHead + 1, |kept|, [])], roundsHead := s.roundsHead + 1,
         stateStart := now, runState := RoundTrain)
  {
    CloseWith(s, kept, gone);
    LeaveForNext(c, CloseRound(s).value, now);
    WitnessTickIs(c, s, None, now, 0);
  }

  // Nobody leaves between the first round and the second.
  lemma AllStay(c: Config, x: Traced, w: Witness) returns (y: Traced)
    requires ConfigOk(c) && Reachable(c, x) && x.h.left == [] && x.h.starts == [IDS]
    requires c.roundWitnessTime == 1 && c.epochTime == 2000 && c.totalSteps == 10 && c.minClients == 1
    requires c.witnessNodes == 0 && c.globalBatchSizeWarmupTokens == 0 && c.globalBatchSizeEnd == 1
    requires x.s == Training(RingOf(RoundOf(0, 3, [w]), ZERO_ROUND, ZERO_ROUND), 0, TRIO, [], 1101).(runState := RoundWitness)
    ensures Reachable(c, y) && y.h.left == [] && y.h.starts == [IDS, IDS]
    ensures y.s == Training(RingOf(RoundOf(0, 3, [w]), RoundOf(1, 3, []), ZERO_ROUND), 1, TRIO, [], 1102)
  {
    MoveThree(TRIO[0], TRIO[1], TRIO[2], 0);
    MoveTwo(TRIO[0], TRIO[1], 0);
    NextRound(c, x.s, 1102, w, TRIO, []);
    assert Ids(TRIO) == IDS;
    y := GoStarting(c, x, Tick(None, 1102, 0), Training(RingOf(RoundOf(0, 3, [w]), RoundOf(1, 3, []), ZERO_ROUND), 1, TRIO, [], 1102));
  }

  // The second round of the run: nobody has left, and Bob reported on the first.
  lemma SecondRound(sha: Sha256, fnv: Fnv, percent: nat, c: Config) returns (x: Traced, w: Witness)
    requires c == SmallConfig(sha, fnv, percent) && percent <= 100
    ensures Reachable(c, x) && x.h.left == [] && x.h.starts == [IDS, IDS]
    ensures x.s == Training(RingOf(RoundOf(0, 3, [w]), RoundOf(1, 3, []), ZERO_ROUND), 1, TRIO, [], 1102)
  {
    var x1 := FirstRound(sha, fnv, percent, 1, c);
    var x2, w' := WithReport(c, x1, 1100);
    w := w';
    TrainingEnds(c, x2.s, 1101);
    var x3 := Go(c, x2, Tick(None, 1101, 0), x2.s.(stateStart := 1101, runState := RoundWitness));
    x := AllStay(c, x3, w);
  }

  // A reachable state at height 1, where the round before the previous is a slot that was never used.
  lemma PreviousPreviousExample(sha: Sha256, fnv: Fnv) returns (c: Config, x: Traced)
    ensures ConfigOk(c) && Reachable(c, x) && Current(x.s).height == 1
    ensures PreviousRound(x.s).Some? && PreviousRound(x.s).value.witnesses != []
    ensures PreviousPreviousRound(x.s) == Some(ZERO_ROUND)
  {
    c := SmallConfig(sha, fnv, 0);
    var y, w := SecondRound(sha, fnv, 0, c);
    x := y;
  }

  // ------------------------------------------------------------------ data that nobody is given

  lemma FirstBatch(sha: Sha256, fnv: Fnv, percent: nat, c: Config)
    requires c == SmallConfig(sha, fnv, percent)
    ensures StepStart(c, 2) == 1
  {
    assert StepStart(c, 1) == 0;
  }

  lemma OneRoundLogged(c: Config, x: Traced)
    requires ConfigOk(c) && Reachable(c, x) && x.s.runState == RoundTrain && x.s.step == 1
    ensures |x.h.log| == 1
  {
    ReachableInv(c, x);
    LogLength(c, x);
  }

  // Everybody verifies, so the data of the first round is in nobody's hands.
  lemma AllVerifyExample(sha: Sha256, fnv: Fnv) returns (c: Config, x: Traced)
    ensures ConfigOk(c) && Reachable(c, x) && x.s.runState == RoundTrain
    ensures |x.h.log| == 1 && StepStart(c, 2) == 1 && forall i: nat, k: nat :: !AssignedAt(x.h, 0, i, k)
  {
    c := SmallConfig(sha, fnv, 100);
    x := FirstRound(sha, fnv, 100, 1, c);
    OneRoundLogged(c, x);
    FirstBatch(sha, fnv, 100, c);
    DataIsAssignedOnceIff(c, x, 0);
  }

  // ------------------------------------------------------------------ an audit of what was not assigned

  // Two items for three members, half of them verifiers.
  function HalfVerify(sha: Sha256, fnv: Fnv): (c: Config)
  {
    SmallConfig(sha, fnv, 50).(globalBatchSizeStart := 2, globalBatchSizeEnd := 2)
  }

  // With one tie-breaker the one trainer left has both items; the round gave one item to each of two.
  lemma OneTrainerLeft(start: nat, few: seq<NodeIdentity>, many: seq<NodeIdentity>, e: (BatchId, NodeIdentity))
    requires |few| == 1 && |many| == 2 && e in AssignmentOf(start, 2, few)
    ensures var b := AssignmentOf(start, 2, many); forall k :: 0 <= k < |b| ==> b[k].0 != e.0
  {
    var a, b := AssignmentOf(start, 2, few), AssignmentOf(start, 2, many);
    assert a[0].0 == Share(start, 2, 1, 0) && b[0].0 == Share(start, 2, 2, 0) && b[1].0 == Share(start, 2, 2, 1);
  }

  // The round was drawn without tie-breakers and is audited with one. Whatever the hash, the one audit is of an
  // interval that was assigned to nobody, and falls to a member who trained.
  lemma TieBreakerAuditExample(sha: Sha256, fnv: Fnv) returns (c: Config, x: Traced, own: Selection, audit: AuditAssignment)
    ensures ConfigOk(c) && Reachable(c, x) && InRound(x.s.runState) && SelectionFor(c, Current(x.s)) == Ok(own)
    ensures RoundAudits(c, x.s, 1) == Done(Ok([audit]))
    ensures |x.h.log| == |x.h.trainers| == x.s.step > 0
    ensures var made := Assigned(x.h, x.s.step - 1); forall k :: 0 <= k < |made| ==> made[k].0 != audit.batchId
    ensures audit.verifierIndex < own.total && own.GetCommittee(sha, audit.verifierIndex).committee == Trainer
  {
    c := HalfVerify(sha, fnv);
    x := FirstRound(sha, fnv, 50, 2, c);
    var sel := SelectionWith(c, Current(x.s), 1).value;
    own := OwnSelection(c, x, 1, sel);
    audit := OneAudit(c, x.s, sel);
    TrainerCount(c, x.s, sel);
    TrainerCount(c, x.s, own);
    OneTrainerLeft(0, ShuffledTrainers(c, x.s, sel), ShuffledTrainers(c, x.s, own), (audit.batchId, audit.target));
  }

  lemma OneAudit(c: Config, s: State, sel: Selection) returns (audit: AuditAssignment)
    requires sel.Valid() && sel.verifiers == 1 && sel.Trainers() > 0 && |s.clients| == sel.total && NoRepeats(Roster(s))
    requires BatchAt(c, Current(s).dataIndex) > 0
    ensures Audits(c, sel, s.clients, RoundAssignment(c, s, sel)) == [audit]
    ensures (audit.batchId, audit.target) in RoundAssignment(c, s, sel)
    ensures audit.verifierIndex < sel.total && sel.GetCommittee(c.sha256, audit.verifierIndex).committee == Verifier
  {
    TrainerCount(c, s, sel);
    var a := RoundAssignment(c, s, sel);
    assert a != [];
    AuditsFollowTheirSelection(c, s, sel);
    audit := Audits(c, sel, s.clients, a)[0];
  }

  // Members who have joined are past the empty selection of an epoch without rounds.
  lemma EarlyAuditExample(sha: Sha256, fnv: Fnv) returns (c: Config, x: Traced)
    ensures ConfigOk(c) && Reachable(c, x) && x.s.runState == Warmup && RoundAudits(c, x.s, 0).Panic?
  {
    c := SmallConfig(sha, fnv, 50);
    x := Join(c, IDS);
    AuditsAbortIff(c, x, 0);
  }

  // ------------------------------------------------------------------ an answer for somebody else's seat

  // A hash under which the first round of the shuffle reverses three indices and the others keep them.
  function Reversing(): (sha: Sha256)
  {
    (b: Bytes) => if |b| > 32 && b[32] == 0 then [5] + Zeros()[1..] else Zeros()
  }

  lemma ReversingRound(key: Digest, round: Byte, i: nat)
    requires i < 3
    ensures ShuffleRound(Reversing(), key, round, 3, i) == if round == 0 then 2 - i else i
  {
    var sha := Reversing();
    var first := sha(key + [round]);
    assert (key + [round])[32] == round;
    if round == 0 {
      assert first[..8] == [5, 0, 0, 0, 0, 0, 0, 0];
      FiveLe();
      FlipWithoutMod(2, 3, i);
    }
    forall position: nat | position < 3
      ensures SwapBit(sha, key, round, position) <==> round == 0 && position != 1
    {
      ReversingBit(key, round, position);
    }
  }

  lemma FiveLe()
    ensures FromLe([5, 0, 0, 0, 0, 0, 0, 0]) == 5
  {
    assert [5, 0, 0, 0, 0, 0, 0, 0][1..] == [0, 0, 0, 0, 0, 0, 0];
    ZeroLe([0, 0, 0, 0, 0, 0, 0]);
  }

  lemma {:induction false} ZeroLe(bytes: Bytes)
    requires forall i :: 0 <= i < |bytes| ==> bytes[i] == 0
    ensures FromLe(bytes) == 0
  {
    if bytes != [] {
      ZeroLe(bytes[1..]);
    }
  }

  lemma ReversingBit(key: Digest, round: Byte, position: nat)
    requires position < 3
    ensures SwapBit(Reversing(), key, round, position) <==> round == 0 && position != 1
  {
    var input := key + [round] + ToLe(position / 256, 4);
    assert input[32] == round;
    assert Pow2(0) == 1 && Pow2(1) == 2 && Pow2(2) == 4;
  }

  lemma {:induction false} ReversingShuffle(key: Digest, rounds: nat, i: nat)
    requires i < 3 && rounds <= 256
    ensures Forward(Reversing(), key, 3, rounds, i) == if rounds == 0 then i else 2 - i
  {
    if rounds > 0 {
      ReversingShuffle(key, rounds - 1, i);
      ReversingRound(key, rounds - 1, Forward(Reversing(), key, 3, rounds - 1, i));
    }
  }

  // Under that hash Alice and Bob train and Carol verifies.
  lemma ReversedSeat(c: Config, i: nat)
    requires c.sha256 == Reversing() && c.verificationPercent == 34 && i < 3
    ensures Draw(c).GetCommittee(c.sha256, i) == CommitteeProof(if i == 2 then Verifier else Trainer, 2 - i, i)
  {
    ReversingShuffle(c.sha256(Draw(c).seed + COMMITTEE_SALT), SHUFFLE_ROUND_COUNT, i);
  }

  lemma AliceLeaves(c: Config, s: State)
    requires s.clients == TRIO
    ensures After(c, s, Withdraw(0)) == s.(clients := [TRIO[0].(state := Withdrawn), TRIO[1], TRIO[2]])
  {
  }

  lemma AliceIsGone(c: Config, x: Traced, w: Witness, w': Witness) returns (y: Traced)
    requires ConfigOk(c) && Reachable(c, x) && x.h.left == [] && x.h.starts == [IDS, IDS]
    requires c.roundWitnessTime == 1 && c.epochTime == 2000 && c.totalSteps == 10 && c.minClients == 1
    requires c.witnessNodes == 0 && c.globalBatchSizeWarmupTokens == 0 && c.globalBatchSizeEnd == 1
    requires x.s == Training(RingOf(RoundOf(0, 3, [w]), RoundOf(1, 3, [w']), ZERO_ROUND), 1,
                             [TRIO[0].(state := Withdrawn), TRIO[1], TRIO[2]], [], 1103).(runState := RoundWitness)
    ensures Reachable(c, y) && y.h.left == [[ALICE]] && y.h.starts == [IDS, IDS, [BOB, CAROL]]
    ensures y.s == Training(RingOf(RoundOf(0, 3, [w]), RoundOf(1, 3, [w']), RoundOf(2, 2, [])), 2,
                            [TRIO[1], TRIO[2]], [Client(ALICE, Withdrawn, 1)], 1104)
  {
    var alice := TRIO[0].(state := Withdrawn);
    MoveThree(alice, TRIO[1], TRIO[2], 1);
    MoveTwo(alice, TRIO[1], 1);
    NextRound(c, x.s, 1104, w', [TRIO[1], TRIO[2]], [Client(ALICE, Withdrawn, 1)]);
    var t := Training(RingOf(RoundOf(0, 3, [w]), RoundOf(1, 3, [w']), RoundOf(2, 2, [])), 2,
                      [TRIO[1], TRIO[2]], [Client(ALICE, Withdrawn, 1)], 1104);
    assert Ids(t.exited[0..]) == [ALICE] && Ids(t.clients) == [BOB, CAROL];
    y := GoStarting(c, x, Tick(None, 1104, 0), t);
  }

  // The third round: Bob reported on the second, and Alice left during it.
  lemma ThirdRound(sha: Sha256, fnv: Fnv, percent: nat, c: Config) returns (x: Traced, w: Witness, w': Witness)
    requires c == SmallConfig(sha, fnv, percent) && percent <= 100
    ensures Reachable(c, x) && x.h.left == [[ALICE]] && x.h.starts == [IDS, IDS, [BOB, CAROL]]
    ensures w'.participantBloom == EMPTY_BLOOM
    ensures x.s == Training(RingOf(RoundOf(0, 3, [w]), RoundOf(1, 3, [w']), RoundOf(2, 2, [])), 2,
                            [TRIO[1], TRIO[2]], [Client(ALICE, Withdrawn, 1)], 1104)
  {
    var x1, first := SecondRound(sha, fnv, percent, c);
    var x2, second := WithReport(c, x1, 1102);
    w, w' := first, second;
    AliceLeaves(c, x2.s);
    var x3 := Go(c, x2, Withdraw(0), x2.s.(clients := [TRIO[0].(state := Withdrawn), TRIO[1], TRIO[2]]));
    TrainingEnds(c, x3.s, 1103);
    var x4 := Go(c, x3, Tick(None, 1103, 0), x3.s.(stateStart := 1103, runState := RoundWitness));
    x := AliceIsGone(c, x4, w, w');
  }

  // Carol, who verified, is now at the place of Bob, who trained. A check that names her with the proof of
  // that place is upheld and drops her, and Bob cannot be named with it.
  lemma WrongSeatExample(fnv: Fnv) returns (c: Config, x: Traced, proof: CommitteeProof)
    ensures ConfigOk(c) && Reachable(c, x) && Current(x.s).height == 2
    ensures x.h.starts == [[ALICE, BOB, CAROL], [ALICE, BOB, CAROL], [BOB, CAROL]]
    ensures proof == Draw(c).GetCommittee(c.sha256, 1) && Indicts(c, x.s, CAROL, proof) && !Indicts(c, x.s, BOB, proof)
    ensures Draw(c).GetCommittee(c.sha256, 2).committee == Verifier
    ensures HealthCheckStep(c, x.s, [(CAROL, proof)]).Done?
    ensures HealthCheckStep(c, x.s, [(CAROL, proof)]).value.1 == Ok(1)
  {
    c := SmallConfig(Reversing(), fnv, 34);
    var y, w, w' := ThirdRound(Reversing(), fnv, 34, c);
    x := y;
    ReversedSeat(c, 1);
    ReversedSeat(c, 2);
    proof := CommitteeProof(Trainer, 1, 1);
    CarolIsIndicted(c, x.s, w', proof);
    ReachableInv(c, x);
    CarolIsDropped(c, x.s, proof);
  }

  lemma CarolIsIndicted(c: Config, s: State, w: Witness, proof: CommitteeProof)
    requires c.witnessNodes == 0 && c.verificationPercent == 34 && w.participantBloom == EMPTY_BLOOM
    requires PreviousRound(s) == Some(RoundOf(1, 3, [w])) && s.clients == [TRIO[1], TRIO[2]]
    requires proof.index == 1 && proof.committee == Trainer && proof == Draw(c).GetCommittee(c.sha256, 1)
    ensures Indicts(c, s, CAROL, proof) && !Indicts(c, s, BOB, proof)
  {
    DrawIsMade(c, 1, [w]);
    NobodyVouched(c, w, CAROL);
  }

  lemma NobodyVouched(c: Config, w: Witness, id: NodeIdentity)
    requires w.participantBloom == EMPTY_BLOOM
    ensures Score(c, id, [w]) == 0
  {
    assert [w][..0] == [];
    var b := w.participantBloom;
    assert !b.bits[Pos(c.fnv, |b.bits|, c.sha256(id.signer), b.keys[0])];
  }

  lemma CarolIsDropped(c: Config, s: State, proof: CommitteeProof)
    requires ConfigOk(c) && Inv(c, s) && s.runState == RoundTrain && Current(s).height == 2
    requires Indicts(c, s, CAROL, proof) && proof.index == 1 && s.clients == [TRIO[1], TRIO[2]]
    ensures HealthCheckStep(c, s, [(CAROL, proof)]).Done?
    ensures HealthCheckStep(c, s, [(CAROL, proof)]).value.1 == Ok(1)
  {
    CheckMeaning(c, s, CAROL, proof);
    DropOne(c, s, proof);
  }

  lemma DropOne(c: Config, s: State, proof: CommitteeProof)
    requires s.runState == RoundTrain && Current(s).height == 2 && ClientHealthy(c, s, CAROL, proof) == Done(Ok(false))
    requires proof.index == 1 && s.clients == [TRIO[1], TRIO[2]]
    ensures HealthCheckStep(c, s, [(CAROL, proof)]).Done?
    ensures HealthCheckStep(c, s, [(CAROL, proof)]).value.1 == Ok(1)
  {
    var checks: HealthChecks := [(CAROL, proof)];
    assert checks[1..] == [] && checks[..0] == [];
    assert CheckAll(c, s, checks) == Done(Ok(()));
    assert DropAll(s.clients, checks[..0]) == Done((s.clients, 0));
  }
}
