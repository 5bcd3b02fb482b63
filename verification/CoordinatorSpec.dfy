/** The coordinator as a value: its state, and each operation as a function from a state to the
    next one. A step the program would abort on (a failed assertion, an index out of bounds, an
    unwrap of an error) is an explicit `Panic`, so every function is total. */
module CoordinatorSpec {
  import opened Wrappers
  import opened Hashing
  import opened BloomFilters
  import opened CommitteeDraw

  const SOLANA_MAX_NUM_CLIENTS := 256
  const NUM_STORED_ROUNDS := 4
  const U16 := 0x1_0000

  // Identities are equal when their signers are.
  datatype NodeIdentity = NodeIdentity(signer: Bytes)

  datatype RunState =
    Uninitialized | WaitingForMembers | Warmup | RoundTrain | RoundWitness | Cooldown | Finished | Paused
  datatype ClientState = Healthy | Dropped | Withdrawn | Ejected
  datatype Client = Client(id: NodeIdentity, state: ClientState, exitedHeight: nat)
  datatype Witness = Witness(
    proof: WitnessProof, participantBloom: Bloom, broadcastBloom: Bloom, broadcastMerkle: Digest)
  datatype Round = Round(
    witnesses: seq<Witness>, dataIndex: nat, randomSeed: nat, height: nat, clientsLen: nat,
    tieBreakerTasks: nat)

  datatype CoordinatorError =
    NoActiveRound | InvalidWitness | InvalidRunState | DuplicateWitness | InvalidHealthCheck | Halted
    | WitnessesFull | CannotResume | InvalidWithdraw | InvalidSelection | InvalidCommitteeProof
    | InvalidSlash

  datatype TickResult = Ticked | EpochEnd(success: bool)

  type HealthChecks = seq<(NodeIdentity, CommitteeProof)>

  /** The run's fixed parameters. `ramp` is the rounded interpolation between the start and end
      batch sizes; `sha256` and `fnv` are the hash functions. */
  datatype Config = Config(
    warmupTime: nat, cooldownTime: nat, maxRoundTrainTime: nat, roundWitnessTime: nat,
    globalBatchSizeWarmupTokens: nat, epochTime: nat, totalSteps: nat, initMinClients: nat,
    minClients: nat, witnessNodes: nat, globalBatchSizeStart: nat, globalBatchSizeEnd: nat,
    verificationPercent: nat, waitingForMembersExtraTime: nat, sequenceLength: nat,
    ramp: nat -> nat, sha256: Sha256, fnv: Fnv)

  type Ring = r: seq<Round> | |r| == NUM_STORED_ROUNDS
    witness [ZERO_ROUND, ZERO_ROUND, ZERO_ROUND, ZERO_ROUND]
  type Head = h: nat | h < NUM_STORED_ROUNDS

  const ZERO_ROUND := Round([], 0, 0, 0, 0, 0)
  const ZERO_RING: Ring := [ZERO_ROUND, ZERO_ROUND, ZERO_ROUND, ZERO_ROUND]

  datatype State = State(
    runState: RunState, stateStart: nat, pendingPause: bool,
    epoch: nat, step: nat, epochStartDataIndex: nat,
    rounds: Ring, roundsHead: Head, clients: seq<Client>, exited: seq<Client>,
    startStep: nat, lastStep: nat, epochStart: nat, firstRound: bool, coldStart: bool)

  // ------------------------------------------------------------------ configuration

  // What `check_error` accepts.
  predicate ConfigOk(c: Config)
  {
    && c.epochTime != 0
    && c.warmupTime < c.epochTime
    && 0 < c.maxRoundTrainTime < c.epochTime
    && c.roundWitnessTime != 0
    && c.minClients != 0
    && c.minClients <= c.initMinClients <= SOLANA_MAX_NUM_CLIENTS
    && 0 < c.globalBatchSizeStart <= c.globalBatchSizeEnd
    && c.totalSteps != 0
    && c.witnessNodes <= c.minClients && c.witnessNodes <= SOLANA_MAX_NUM_WITNESSES
    && c.cooldownTime != 0
    && c.waitingForMembersExtraTime != 0
  }

  function BatchSize(c: Config, tokens: nat): (b: nat)
  {
    if tokens >= c.globalBatchSizeWarmupTokens then c.globalBatchSizeEnd else c.ramp(tokens)
  }

  // The size of a round that starts at `dataIndex`.
  function BatchAt(c: Config, dataIndex: nat): (b: nat)
  {
    BatchSize(c, dataIndex * c.sequenceLength)
  }

  // ------------------------------------------------------------------ reading the state

  predicate IsHalted(r: RunState) { r == Uninitialized || r == Finished || r == Paused }

  predicate IsActive(r: RunState) { r == RoundTrain || r == RoundWitness || r == Cooldown }

  predicate InRound(r: RunState) { r == RoundTrain || r == RoundWitness }

  function Current(s: State): (r: Round) { s.rounds[s.roundsHead] }

  function PreviousRound(s: State): (r: Option<Round>)
  {
    if s.roundsHead == 0 && Current(s).height == 0 then None
    else if s.roundsHead == 0 then Some(s.rounds[NUM_STORED_ROUNDS - 1])
    else Some(s.rounds[s.roundsHead - 1])
  }

  function PreviousPreviousRound(s: State): (r: Option<Round>)
  {
    if s.roundsHead == 0 && Current(s).height <= 1 then None
    else if s.roundsHead == 0 then Some(s.rounds[NUM_STORED_ROUNDS - 2])
    else if s.roundsHead == 1 then Some(s.rounds[NUM_STORED_ROUNDS - 1])
    else Some(s.rounds[s.roundsHead - 2])
  }

  function HistoricalClient(s: State, n: nat, prevClientsLen: nat): (r: Option<Client>)
  {
    if n < |s.clients| then Some(s.clients[n])
    else if n < prevClientsLen then
      var offset := prevClientsLen - n - 1;
      if offset < |s.exited| then Some(s.exited[|s.exited| - 1 - offset]) else None
    else None
  }

  // Positions from..clientsLen of the historical list, skipping the ones that resolve to nobody.
  function HistoricalFrom(s: State, from: nat, clientsLen: nat): (r: seq<Client>)
    decreases clientsLen - from
  {
    if from >= clientsLen then []
    else match HistoricalClient(s, from, clientsLen)
      case None => HistoricalFrom(s, from + 1, clientsLen)
      case Some(client) => [client] + HistoricalFrom(s, from + 1, clientsLen)
  }

  function HistoricalClients(s: State, clientsLen: nat): (r: seq<Client>)
  {
    HistoricalFrom(s, 0, clientsLen)
  }

  predicate TimedOut(s: State, now: nat, duration: nat)
  {
    s.stateStart != now && now >= duration + s.stateStart
  }

  predicate EpochTimedOut(c: Config, s: State, now: nat)
  {
    s.epochStart != now && now >= s.epochStart + c.epochTime
  }

  function SelectionFor(c: Config, round: Round): (r: Result<Selection, InvalidSelection>)
  {
    NewSelection(c.sha256, round.tieBreakerTasks, c.witnessNodes, c.verificationPercent,
                 round.clientsLen, round.randomSeed)
  }

  function WitnessTarget(c: Config, clients: seq<Client>): (n: nat)
  {
    if c.witnessNodes == 0 then
      if |clients| < SOLANA_MAX_NUM_WITNESSES then |clients| else SOLANA_MAX_NUM_WITNESSES
    else c.witnessNodes
  }

  // Two thirds of the witnesses, rounded down, except that two witnesses must both agree.
  function WitnessQuorum(c: Config, numWitnesses: nat): (r: Outcome<nat>)
  {
    var nodes := if c.witnessNodes == 0 then numWitnesses else c.witnessNodes;
    if nodes == 0 then Panic
    else if nodes == 1 then Done(1)
    else if nodes == 2 then Done(2)
    else Done(nodes * 2 / 3)
  }

  // ------------------------------------------------------------------ small updates

  function ChangeState(s: State, now: nat, r: RunState): (o: Outcome<State>)
  {
    if s.runState == r then Panic else Done(s.(stateStart := now, runState := r))
  }

  function StartWaitingForMembers(c: Config, s: State, now: nat): (o: Outcome<State>)
  {
    ChangeState(s, now, if s.step < c.totalSteps then WaitingForMembers else Finished)
  }

  function StartCooldown(s: State, now: nat): (o: Outcome<State>)
  {
    var cleared := s.rounds[s.roundsHead := Current(s).(witnesses := [])];
    ChangeState(s.(rounds := cleared), now, Cooldown)
  }

  // Where the next round goes: ring slot, height and first data index.
  function NextSlot(c: Config, s: State): (r: (Head, nat, nat))
  {
    if s.firstRound then (0, 0, s.epochStartDataIndex)
    else
      var prev := Current(s);
      ((s.roundsHead + 1) % NUM_STORED_ROUNDS, prev.height + 1,
       prev.dataIndex + BatchAt(c, prev.dataIndex))
  }

  function StartRoundTrain(c: Config, s: State, now: nat, seed: nat, tieBreakerTasks: nat): (o: Outcome<State>)
  {
    var (head, height, dataIndex) := NextSlot(c, s);
    var round := Round([], dataIndex, seed, height, |s.clients|, tieBreakerTasks);
    ChangeState(s.(rounds := s.rounds[head := round], roundsHead := head), now, RoundTrain)
  }

  function Kept(clients: seq<Client>): (r: seq<Client>)
    ensures |r| <= |clients|
  {
    if clients == [] then []
    else
      var last := clients[|clients| - 1];
      Kept(clients[..|clients| - 1]) + if last.state == Healthy then [last] else []
  }

  function Leaving(clients: seq<Client>, height: nat): (r: seq<Client>)
    ensures |r| <= |clients|
  {
    if clients == [] then []
    else
      var last := clients[|clients| - 1];
      Leaving(clients[..|clients| - 1], height)
      + if last.state == Healthy then [] else [last.(exitedHeight := height)]
  }

  function MoveClientsToExited(s: State, height: nat): (o: Outcome<State>)
  {
    var exited := s.exited + Leaving(s.clients, height);
    if |exited| > SOLANA_MAX_NUM_CLIENTS then Panic
    else Done(s.(clients := Kept(s.clients), exited := exited))
  }

  function WithdrawnClients(clients: seq<Client>): (r: seq<Client>)
    ensures |r| == |clients|
  {
    if clients == [] then []
    else
      var last := clients[|clients| - 1];
      WithdrawnClients(clients[..|clients| - 1])
      + [if last.state == Healthy then last.(state := Withdrawn) else last]
  }

  function WithdrawAll(s: State): (r: State) { s.(clients := WithdrawnClients(s.clients)) }

  function PushWitness(s: State, w: Witness): (r: State)
  {
    s.(rounds := s.rounds[s.roundsHead := Current(s).(witnesses := Current(s).witnesses + [w])])
  }

  // ------------------------------------------------------------------ witnessing

  // Whether `from` already has a stored witness; a stored index is resolved before it is compared.
  function HasWitnessed(clients: seq<Client>, ws: seq<Witness>, from: NodeIdentity): (o: Outcome<bool>)
  {
    if ws == [] then Done(false)
    else if ws[0].proof.index >= |clients| then Panic
    else if clients[ws[0].proof.index].id == from then Done(true)
    else HasWitnessed(clients, ws[1..], from)
  }

  predicate VerifyClient(id: NodeIdentity, index: nat, clients: seq<Client>)
  {
    index < |clients| && clients[index].id == id
  }

  function VerifyWitnessForClient(
    c: Config, sel: Selection, id: NodeIdentity, proof: WitnessProof, clients: seq<Client>): (o: Outcome<bool>)
  {
    if !VerifyClient(id, proof.index, clients) then Done(false)
    else if proof.index >= sel.total then Panic
    else Done(sel.VerifyWitness(c.sha256, proof))
  }

  function VerifyCommitteeForClient(
    c: Config, sel: Selection, id: NodeIdentity, proof: CommitteeProof, clients: seq<Client>): (o: Outcome<bool>)
  {
    if !VerifyClient(id, proof.index, clients) then Done(false)
    else if proof.index >= sel.total then Panic
    else Done(sel.VerifyCommittee(c.sha256, proof))
  }

  function WarmupWitnessStep(c: Config, s: State, from: NodeIdentity, w: Witness, now: nat, seed: nat)
    : (o: Outcome<(State, Result<(), CoordinatorError>)>)
  {
    if IsHalted(s.runState) then Done((s, Err(Halted)))
    else if s.runState == RoundTrain then Done((s, Ok(())))
    else if s.runState != Warmup then Done((s, Err(InvalidRunState)))
    else if !VerifyClient(from, w.proof.index, s.clients) then Done((s, Err(InvalidCommitteeProof)))
    else
      var duplicate :- HasWitnessed(s.clients, Current(s).witnesses, from);
      if duplicate then Done((s, Err(DuplicateWitness)))
      else if |Current(s).witnesses| >= SOLANA_MAX_NUM_WITNESSES then Done((s, Err(WitnessesFull)))
      else
        var s1 := PushWitness(s, w);
        if |Current(s1).witnesses| == WitnessTarget(c, s.clients) then
          var s2 :- StartRoundTrain(c, s1, now, seed, 0);
          Done((s2, Ok(())))
        else Done((s1, Ok(())))
  }

  function WitnessStep(c: Config, s: State, from: NodeIdentity, w: Witness, now: nat)
    : (o: Outcome<(State, Result<(), CoordinatorError>)>)
  {
    if IsHalted(s.runState) then Done((s, Err(Halted)))
    else if !InRound(s.runState) then Done((s, Err(InvalidRunState)))
    else match SelectionFor(c, Current(s))
      case Err(_) => Done((s, Err(InvalidSelection)))
      case Ok(sel) =>
        var verified :- VerifyWitnessForClient(c, sel, from, w.proof, s.clients);
        if !verified || w.proof.elected.IsFalse() then Done((s, Err(InvalidWitness)))
        else
          var duplicate :- HasWitnessed(s.clients, Current(s).witnesses, from);
          if duplicate then Done((s, Err(DuplicateWitness)))
          else if |Current(s).witnesses| >= SOLANA_MAX_NUM_WITNESSES then Done((s, Err(WitnessesFull)))
          else
            var s1 := PushWitness(s, w);
            if |Current(s1).witnesses| == WitnessTarget(c, s.clients) && s.runState != RoundWitness then
              var s2 :- ChangeState(s1, now, RoundWitness);
              Done((s2, Ok(())))
            else Done((s1, Ok(())))
  }

  // ------------------------------------------------------------------ health checks

  function Score(c: Config, id: NodeIdentity, witnesses: seq<Witness>): (n: nat)
    ensures n <= |witnesses|
  {
    if witnesses == [] then 0
    else
      Score(c, id, witnesses[..|witnesses| - 1])
      + if Contains(c.fnv, witnesses[|witnesses| - 1].participantBloom, c.sha256(id.signer)) then 1 else 0
  }

  function TrainerHealthy(c: Config, s: State, id: NodeIdentity): (o: Outcome<Result<bool, CoordinatorError>>)
  {
    match PreviousRound(s)
    case None => Done(Err(NoActiveRound))
    case Some(round) =>
      var quorum :- WitnessQuorum(c, |round.witnesses|);
      Done(Ok(Score(c, id, round.witnesses) >= quorum))
  }

  function ClientHealthy(c: Config, s: State, id: NodeIdentity, proof: CommitteeProof)
    : (o: Outcome<Result<bool, CoordinatorError>>)
  {
    match PreviousRound(s)
    case None => Done(Err(NoActiveRound))
    case Some(round) =>
      if proof.index >= round.clientsLen then Done(Err(InvalidCommitteeProof))
      else match HistoricalClient(s, proof.index, round.clientsLen)
        case None => Done(Err(InvalidCommitteeProof))
        case Some(client) =>
          match SelectionFor(c, round)
          case Err(_) => Done(Err(InvalidSelection))
          case Ok(sel) =>
            if client.id != id then Done(Err(InvalidCommitteeProof))
            else
              var verified :- VerifyCommitteeForClient(c, sel, client.id, proof, s.clients);
              if !verified then Done(Err(InvalidCommitteeProof))
              else match proof.committee
                case TieBreaker => Done(Ok(true))
                case Verifier => Done(Ok(true))
                case Trainer => TrainerHealthy(c, s, client.id)
  }

  // The first error among the checks, where naming a healthy client is one.
  function CheckAll(c: Config, s: State, checks: HealthChecks): (o: Outcome<Result<(), CoordinatorError>>)
  {
    if checks == [] then Done(Ok(()))
    else
      var healthy :- ClientHealthy(c, s, checks[0].0, checks[0].1);
      match healthy
      case Err(e) => Done(Err(e))
      case Ok(true) => Done(Err(InvalidHealthCheck))
      case Ok(false) => CheckAll(c, s, checks[1..])
  }

  function DropAll(clients: seq<Client>, checks: HealthChecks): (o: Outcome<(seq<Client>, nat)>)
  {
    if checks == [] then Done((clients, 0))
    else
      var last := |checks| - 1;
      var (dropped, n) :- DropAll(clients, checks[..last]);
      var index := checks[last].1.index;
      if index >= |dropped| then Panic
      else if dropped[index].state == Healthy then
        Done((dropped[index := dropped[index].(state := Dropped)], n + 1))
      else Done((dropped, n))
  }

  function HealthCheckStep(c: Config, s: State, checks: HealthChecks)
    : (o: Outcome<(State, Result<nat, CoordinatorError>)>)
  {
    if IsHalted(s.runState) then Done((s, Err(Halted)))
    else if Current(s).height < 2 then Done((s, Err(InvalidHealthCheck)))
    else
      var verdict :- CheckAll(c, s, checks);
      match verdict
      case Err(e) => Done((s, Err(e)))
      case Ok(_) =>
        var (clients, dropped) :- DropAll(s.clients, checks);
        Done((s.(clients := clients), Ok(dropped)))
  }

  // ------------------------------------------------------------------ leaving, pausing

  function WithdrawStep(s: State, index: nat): (r: (State, Result<(), CoordinatorError>))
  {
    if index < |s.clients| && s.clients[index].state == Healthy then
      (s.(clients := s.clients[index := s.clients[index].(state := Withdrawn)]), Ok(()))
    else (s, Err(InvalidWithdraw))
  }

  function EjectStep(s: State, index: nat): (r: (State, Result<(), CoordinatorError>))
  {
    if index < |s.clients| && (s.clients[index].state == Healthy || s.clients[index].state == Dropped) then
      (s.(clients := s.clients[index := s.clients[index].(state := Ejected)]), Ok(()))
    else (s, Err(InvalidSlash))
  }

  function PauseStep(s: State, now: nat): (o: Outcome<(State, Result<(), CoordinatorError>)>)
  {
    if IsHalted(s.runState) then Done((s, Err(Halted)))
    else if IsActive(s.runState) then Done((s.(pendingPause := true), Ok(())))
    else
      var s1 :- ChangeState(WithdrawAll(s), now, Paused);
      Done((s1.(coldStart := true), Ok(())))
  }

  function ResumeStep(c: Config, s: State, now: nat): (o: Outcome<(State, Result<(), CoordinatorError>)>)
  {
    if s.runState != Paused then Done((s, Err(CannotResume)))
    else
      var s1 :- StartWaitingForMembers(c, s, now);
      Done((s1, Ok(())))
  }

  // ------------------------------------------------------------------ ticking

  function NewClients(ids: seq<NodeIdentity>): (r: seq<Client>)
    ensures |r| == |ids|
    ensures forall i :: 0 <= i < |r| ==> r[i] == Client(ids[i], Healthy, 0)
  {
    seq(|ids|, i requires 0 <= i < |ids| => Client(ids[i], Healthy, 0))
  }

  function Admitted(ids: seq<NodeIdentity>): (r: seq<NodeIdentity>)
  {
    if |ids| < SOLANA_MAX_NUM_CLIENTS then ids else ids[..SOLANA_MAX_NUM_CLIENTS]
  }

  // A zeroed epoch with its members; only the cold-start flag survives from the one before.
  function FreshEpoch(s: State, ids: seq<NodeIdentity>, now: nat): (r: State)
  {
    s.(rounds := ZERO_RING, roundsHead := 0, clients := NewClients(Admitted(ids)), exited := [],
       startStep := s.step, lastStep := 0, epochStart := now, firstRound := true)
  }

  function TickWaiting(c: Config, s: State, pending: Option<seq<NodeIdentity>>, now: nat)
    : (o: Outcome<(State, TickResult)>)
  {
    match pending
    case None => Done((s, Ticked))
    case Some(ids) =>
      if |ids| % U16 >= c.initMinClients && TimedOut(s, now, c.waitingForMembersExtraTime) then
        var kicked :- MoveClientsToExited(s, Current(s).height);
        var s1 :- ChangeState(FreshEpoch(kicked, ids, now), now, Warmup);
        Done((s1, Ticked))
      else Done((s, Ticked))
  }

  function TickWarmup(c: Config, s: State, now: nat, seed: nat): (o: Outcome<(State, TickResult)>)
  {
    var s1 :- if TimedOut(s, now, c.warmupTime) then StartRoundTrain(c, s, now, seed, 0)
              else MoveClientsToExited(s, 0);
    if |s1.clients| < c.minClients then
      var s2 :- StartWaitingForMembers(c, s1, now);
      Done((s2, EpochEnd(false)))
    else Done((s1, Ticked))
  }

  function TickRoundTrain(c: Config, s: State, now: nat): (o: Outcome<(State, TickResult)>)
  {
    if TimedOut(s, now, c.maxRoundTrainTime) then
      var s1 :- ChangeState(s, now, RoundWitness);
      Done((s1, Ticked))
    else Done((s, Ticked))
  }

  // Bookkeeping at the end of a round: count the step, let the leavers go.
  function CloseRound(s: State): (o: Outcome<State>)
  {
    MoveClientsToExited(s.(firstRound := false, step := s.step + 1), Current(s).height)
  }

  // Once the epoch's time is up, two more rounds are left.
  function NoticeDeadline(c: Config, s: State, now: nat): (r: State)
  {
    if EpochTimedOut(c, s, now) && s.lastStep == 0 && s.step + 2 >= 4 then s.(lastStep := s.step + 2) else s
  }

  predicate MustCoolDown(c: Config, s: State, numWitnesses: nat, quorum: nat)
  {
    || |s.clients| < c.minClients
    || numWitnesses < quorum
    || s.step >= c.totalSteps
    || s.pendingPause
  }

  // Where a closed round leads.
  function LeaveRound(c: Config, s: State, numWitnesses: nat, now: nat, seed: nat): (o: Outcome<State>)
  {
    if numWitnesses == 0 then StartCooldown(WithdrawAll(s), now)
    else
      var s1 := NoticeDeadline(c, s, now);
      if s1.lastStep != 0 && s1.step == s1.lastStep then StartCooldown(s1, now)
      else
        var quorum :- WitnessQuorum(c, numWitnesses);
        if MustCoolDown(c, s1, numWitnesses, quorum) then StartCooldown(s1, now)
        else StartRoundTrain(c, s1, now, seed, 0)
  }

  function TickRoundWitness(c: Config, s: State, now: nat, seed: nat): (o: Outcome<(State, TickResult)>)
  {
    if !TimedOut(s, now, c.roundWitnessTime) then Done((s, Ticked))
    else
      var s1 :- CloseRound(s);
      var s2 :- LeaveRound(c, s1, |Current(s).witnesses|, now, seed);
      Done((s2, Ticked))
  }

  // The books at the end of an epoch: where the data continues, and who is gone.
  function SettleEpoch(c: Config, s: State): (o: Outcome<State>)
  {
    var last := Current(s);
    MoveClientsToExited(
      s.(epochStartDataIndex := last.dataIndex + BatchAt(c, last.dataIndex), epoch := s.epoch + 1), last.height)
  }

  function LeaveEpoch(c: Config, s: State, now: nat): (o: Outcome<State>)
  {
    if s.pendingPause then
      var s1 :- ChangeState(WithdrawAll(s), now, Paused);
      Done(s1.(pendingPause := false, coldStart := true))
    else
      var s1 :- StartWaitingForMembers(c, s, now);
      Done(s1.(coldStart := false))
  }

  function TickCooldown(c: Config, s: State, now: nat): (o: Outcome<(State, TickResult)>)
  {
    if !TimedOut(s, now, c.cooldownTime) then Done((s, Ticked))
    else
      var s1 :- SettleEpoch(c, s);
      var s2 :- LeaveEpoch(c, s1, now);
      Done((s2, EpochEnd(true)))
  }

  function TickStep(c: Config, s: State, pending: Option<seq<NodeIdentity>>, now: nat, seed: nat)
    : (o: Outcome<(State, Result<TickResult, CoordinatorError>)>)
  {
    if IsHalted(s.runState) then Done((s, Err(Halted)))
    else
      var (s1, r) :-
        match s.runState
        case WaitingForMembers => TickWaiting(c, s, pending, now)
        case Warmup => TickWarmup(c, s, now, seed)
        case RoundTrain => TickRoundTrain(c, s, now)
        case RoundWitness => TickRoundWitness(c, s, now, seed)
        case _ => TickCooldown(c, s, now);
      Done((s1, Ok(r)))
  }
}
