/** The coordinator as the object it is: fields updated in place, one method per operation. Each
    method is proved to compute the step function of `CoordinatorSpec`; from a valid state none of
    them aborts, except that a warmup witness may, and then it changes nothing. */
module CoordinatorObject {
  import opened Wrappers
  import opened CommitteeDraw
  import Spec = CoordinatorSpec
  import opened CoordinatorInvariants
  import opened CoordinatorSteps
  import opened CoordinatorHealth

  type Error = Spec.CoordinatorError

  class Coordinator {
    const config: Spec.Config
    const rounds: array<Spec.Round>
    var runState: Spec.RunState
    var stateStart: nat
    var pendingPause: bool
    var epoch: nat
    var step: nat
    var epochStartDataIndex: nat
    var roundsHead: Spec.Head
    var clients: seq<Spec.Client>
    var exited: seq<Spec.Client>
    var startStep: nat
    var lastStep: nat
    var epochStart: nat
    var firstRound: bool
    var coldStart: bool

    predicate Shape() { rounds.Length == Spec.NUM_STORED_ROUNDS }

    function View(): (s: Spec.State)
      requires Shape()
      reads this, rounds
    {
      Spec.State(runState, stateStart, pendingPause, epoch, step, epochStartDataIndex, rounds[..], roundsHead,
                 clients, exited, startStep, lastStep, epochStart, firstRound, coldStart)
    }

    // Every reachable state satisfies this.
    ghost predicate Valid()
      reads this, rounds
    {
      Shape() && Spec.ConfigOk(config) && Inv(config, View())
    }

    constructor (config: Spec.Config, initial: Spec.State)
      requires Spec.ConfigOk(config) && Init(config, initial)
      ensures Valid() && fresh(rounds) && this.config == config && View() == initial
    {
      this.config := config;
      rounds := new Spec.Round[Spec.NUM_STORED_ROUNDS](i requires 0 <= i < |initial.rounds| => initial.rounds[i]);
      runState, stateStart, pendingPause := initial.runState, initial.stateStart, initial.pendingPause;
      epoch, step, epochStartDataIndex := initial.epoch, initial.step, initial.epochStartDataIndex;
      roundsHead, clients, exited := initial.roundsHead, initial.clients, initial.exited;
      startStep, lastStep, epochStart := initial.startStep, initial.lastStep, initial.epochStart;
      firstRound, coldStart := initial.firstRound, initial.coldStart;
      new;
      assert rounds[..] == initial.rounds;
      InitInv(config, initial);
    }

    // ---------------------------------------------------------------- small updates

    // Staying in the same state would abort.
    method ChangeState(now: nat, r: Spec.RunState)
      requires Shape() && runState != r
      modifies this`stateStart, this`runState
      ensures Done(View()) == Spec.ChangeState(old(View()), now, r)
    {
      stateStart := now;
      runState := r;
    }

    method StartWaitingForMembers(now: nat)
      requires Shape() && Spec.StartWaitingForMembers(config, View(), now).Done?
      modifies this`stateStart, this`runState
      ensures Done(View()) == Spec.StartWaitingForMembers(config, old(View()), now)
    {
      if step < config.totalSteps {
        ChangeState(now, Spec.WaitingForMembers);
      } else {
        ChangeState(now, Spec.Finished);
      }
    }

    method StartCooldown(now: nat)
      requires Shape() && runState != Spec.Cooldown
      modifies this, rounds
      ensures Done(View()) == Spec.StartCooldown(old(View()), now)
    {
      rounds[roundsHead] := rounds[roundsHead].(witnesses := []);
      ChangeState(now, Spec.Cooldown);
    }

    method StartRoundTrain(now: nat, seed: nat, tieBreakerTasks: nat)
      requires Shape() && runState != Spec.RoundTrain
      modifies this, rounds
      ensures Done(View()) == Spec.StartRoundTrain(config, old(View()), now, seed, tieBreakerTasks)
    {
      var head, height, dataIndex := 0, 0, epochStartDataIndex;
      if !firstRound {
        var prev := rounds[roundsHead];
        var batchSize := Spec.BatchSize(config, prev.dataIndex * config.sequenceLength);
        head, height, dataIndex :=
          (roundsHead + 1) % Spec.NUM_STORED_ROUNDS, prev.height + 1, prev.dataIndex + batchSize;
      }
      rounds[head] := Spec.Round([], dataIndex, seed, height, |clients|, tieBreakerTasks);
      roundsHead := head;
      ChangeState(now, Spec.RoundTrain);
    }

    method MoveClientsToExited(height: nat)
      requires Shape() && Spec.MoveClientsToExited(View(), height).Done?
      modifies this`clients, this`exited
      ensures Done(View()) == Spec.MoveClientsToExited(old(View()), height)
    {
      var kept := [];
      ghost var all := clients;
      for i := 0 to |clients|
        invariant clients == all && kept == Spec.Kept(all[..i])
        invariant exited == old(exited) + Spec.Leaving(all[..i], height)
      {
        MoveNext(all, i, height);
        var client := clients[i];
        if client.state != Spec.Healthy {
          // room for one more exit, or the push would abort
          LeavingGrows(all, i + 1, height);
          assert |exited| < Spec.SOLANA_MAX_NUM_CLIENTS;
          exited := exited + [client.(exitedHeight := height)];
        } else {
          kept := kept + [client];
        }
      }
      assert all[..|all|] == all;
      clients := kept;
    }

    method Withdraw(index: nat) returns (r: Result<(), Error>)
      requires Shape()
      modifies this`clients
      ensures (View(), r) == Spec.WithdrawStep(old(View()), index)
    {
      if index < |clients| && clients[index].state == Spec.Healthy {
        clients := clients[index := clients[index].(state := Spec.Withdrawn)];
        return Ok(());
      }
      return Err(Spec.InvalidWithdraw);
    }

    method WithdrawAll()
      requires Shape()
      modifies this`clients
      ensures View() == Spec.WithdrawAll(old(View()))
    {
      ghost var all := clients;
      for i := 0 to |clients|
        invariant |clients| == |all|
        invariant clients == Spec.WithdrawnClients(all[..i]) + all[i..]
      {
        WithdrawnStep(all, i);
        var _ := Withdraw(i);
      }
      assert all[..|all|] == all;
    }

    method Eject(index: nat) returns (r: Result<(), Error>)
      requires Valid()
      modifies this`clients
      ensures Valid() && (View(), r) == Spec.EjectStep(old(View()), index)
    {
      EjectKeepsInv(config, View(), index);
      if index < |clients| && (clients[index].state == Spec.Healthy || clients[index].state == Spec.Dropped) {
        clients := clients[index := clients[index].(state := Spec.Ejected)];
        return Ok(());
      }
      return Err(Spec.InvalidSlash);
    }

    method WithdrawClient(index: nat) returns (r: Result<(), Error>)
      requires Valid()
      modifies this`clients
      ensures Valid() && (View(), r) == Spec.WithdrawStep(old(View()), index)
    {
      WithdrawKeepsInv(config, View(), index);
      r := Withdraw(index);
    }

    // ---------------------------------------------------------------- pausing

    method Pause(now: nat) returns (r: Result<(), Error>)
      requires Valid()
      modifies this
      ensures Valid() && Done((View(), r)) == Spec.PauseStep(old(View()), now)
    {
      PauseKeepsInv(config, View(), now);
      if Spec.IsHalted(runState) {
        return Err(Spec.Halted);
      }
      if Spec.IsActive(runState) {
        pendingPause := true;
      } else {
        WithdrawAll();
        ChangeState(now, Spec.Paused);
        coldStart := true;
      }
      return Ok(());
    }

    method Resume(now: nat) returns (r: Result<(), Error>)
      requires Valid()
      modifies this
      ensures Valid() && Done((View(), r)) == Spec.ResumeStep(config, old(View()), now)
    {
      ResumeKeepsInv(config, View(), now);
      if runState != Spec.Paused {
        return Err(Spec.CannotResume);
      }
      StartWaitingForMembers(now);
      return Ok(());
    }

    // ---------------------------------------------------------------- ticking

    method Tick(pending: Option<seq<Spec.NodeIdentity>>, now: nat, seed: nat)
      returns (r: Result<Spec.TickResult, Error>)
      requires Valid()
      modifies this, rounds
      ensures Done((View(), r)) == Spec.TickStep(config, old(View()), pending, now, seed)
      ensures Valid() <==> AdmitsOnce(config, old(View()), pending, now)
    {
      TickKeepsInvIff(config, View(), pending, now, seed);
      var result;
      match runState {
        case Uninitialized => return Err(Spec.Halted);
        case Finished => return Err(Spec.Halted);
        case Paused => return Err(Spec.Halted);
        case WaitingForMembers => result := TickWaitingForMembers(pending, now);
        case Warmup => result := TickWarmup(now, seed);
        case RoundTrain => result := TickRoundTrain(now);
        case RoundWitness => result := TickRoundWitness(now, seed);
        case Cooldown => result := TickCooldown(now);
      }
      return Ok(result);
    }

    method TickWaitingForMembers(pending: Option<seq<Spec.NodeIdentity>>, now: nat) returns (r: Spec.TickResult)
      requires Shape() && Spec.TickWaiting(config, View(), pending, now).Done?
      modifies this, rounds
      ensures Done((View(), r)) == Spec.TickWaiting(config, old(View()), pending, now)
    {
      if pending.None? {
        return Spec.Ticked;
      }
      var ids := pending.value;
      if |ids| % Spec.U16 >= config.initMinClients
         && Spec.TimedOut(View(), now, config.waitingForMembersExtraTime) {
        MoveClientsToExited(rounds[roundsHead].height);
        ResetEpoch(ids, now);
        ChangeState(now, Spec.Warmup);
      }
      return Spec.Ticked;
    }

    method ResetEpoch(ids: seq<Spec.NodeIdentity>, now: nat)
      requires Shape()
      modifies this, rounds
      ensures View() == Spec.FreshEpoch(old(View()), ids, now)
    {
      forall i | 0 <= i < rounds.Length {
        rounds[i] := Spec.ZERO_ROUND;
      }
      assert rounds[..] == Spec.ZERO_RING;
      roundsHead, exited, lastStep := 0, [], 0;
      firstRound, startStep, epochStart := true, step, now;
      clients := Spec.NewClients(Spec.Admitted(ids));
    }

    method TickWarmup(now: nat, seed: nat) returns (r: Spec.TickResult)
      requires Shape() && Spec.TickWarmup(config, View(), now, seed).Done?
      modifies this, rounds
      ensures Done((View(), r)) == Spec.TickWarmup(config, old(View()), now, seed)
    {
      if Spec.TimedOut(View(), now, config.warmupTime) {
        StartRoundTrain(now, seed, 0);
      } else {
        MoveClientsToExited(0);
      }
      if |clients| < config.minClients {
        StartWaitingForMembers(now);
        return Spec.EpochEnd(false);
      }
      return Spec.Ticked;
    }

    method TickRoundTrain(now: nat) returns (r: Spec.TickResult)
      requires Shape() && Spec.TickRoundTrain(config, View(), now).Done?
      modifies this`stateStart, this`runState
      ensures Done((View(), r)) == Spec.TickRoundTrain(config, old(View()), now)
    {
      if Spec.TimedOut(View(), now, config.maxRoundTrainTime) {
        ChangeState(now, Spec.RoundWitness);
      }
      return Spec.Ticked;
    }

    method TickRoundWitness(now: nat, seed: nat) returns (r: Spec.TickResult)
      requires Shape() && Spec.TickRoundWitness(config, View(), now, seed).Done?
      modifies this, rounds
      ensures Done((View(), r)) == Spec.TickRoundWitness(config, old(View()), now, seed)
    {
      if Spec.TimedOut(View(), now, config.roundWitnessTime) {
        var numWitnesses := |rounds[roundsHead].witnesses|;
        firstRound := false;
        step := step + 1;
        MoveClientsToExited(rounds[roundsHead].height);
        LeaveRound(numWitnesses, now, seed);
      }
      return Spec.Ticked;
    }

    method LeaveRound(numWitnesses: nat, now: nat, seed: nat)
      requires Shape() && Spec.LeaveRound(config, View(), numWitnesses, now, seed).Done?
      modifies this, rounds
      ensures Done(View()) == Spec.LeaveRound(config, old(View()), numWitnesses, now, seed)
    {
      if numWitnesses == 0 {
        WithdrawAll();
        StartCooldown(now);
        return;
      }
      if Spec.EpochTimedOut(config, View(), now) && lastStep == 0 {
        var last := step + 2;
        if last >= 4 {
          lastStep := last;
        }
      }
      if lastStep != 0 && step == lastStep {
        StartCooldown(now);
        return;
      }
      if |clients| < config.minClients
         || numWitnesses < Spec.WitnessQuorum(config, numWitnesses).value
         || step >= config.totalSteps
         || pendingPause {
        StartCooldown(now);
        return;
      }
      StartRoundTrain(now, seed, 0);
    }

    method TickCooldown(now: nat) returns (r: Spec.TickResult)
      requires Shape() && Spec.TickCooldown(config, View(), now).Done?
      modifies this
      ensures Done((View(), r)) == Spec.TickCooldown(config, old(View()), now)
    {
      if !Spec.TimedOut(View(), now, config.cooldownTime) {
        return Spec.Ticked;
      }
      var last := rounds[roundsHead];
      epochStartDataIndex := last.dataIndex + Spec.BatchSize(config, last.dataIndex * config.sequenceLength);
      epoch := epoch + 1;
      MoveClientsToExited(last.height);
      LeaveEpoch(now);
      return Spec.EpochEnd(true);
    }

    method LeaveEpoch(now: nat)
      requires Shape() && Spec.LeaveEpoch(config, View(), now).Done?
      modifies this
      ensures Done(View()) == Spec.LeaveEpoch(config, old(View()), now)
    {
      if pendingPause {
        WithdrawAll();
        ChangeState(now, Spec.Paused);
        pendingPause, coldStart := false, true;
      } else {
        StartWaitingForMembers(now);
        coldStart := false;
      }
    }

    // ---------------------------------------------------------------- witnessing

    // Scans the stored witnesses for the sender; aborts on an index that no longer resolves.
    method HasWitnessed(from: Spec.NodeIdentity) returns (o: Outcome<bool>)
      requires Shape()
      ensures o == Spec.HasWitnessed(clients, rounds[roundsHead].witnesses, from)
    {
      var ws := rounds[roundsHead].witnesses;
      for i := 0 to |ws|
        invariant Spec.HasWitnessed(clients, ws, from) == Spec.HasWitnessed(clients, ws[i..], from)
      {
        assert ws[i..][1..] == ws[i + 1..];
        if ws[i].proof.index >= |clients| {
          return Panic;
        }
        if clients[ws[i].proof.index].id == from {
          return Done(true);
        }
      }
      return Done(false);
    }

    method WarmupWitness(from: Spec.NodeIdentity, w: Spec.Witness, now: nat, seed: nat)
      returns (o: Outcome<Result<(), Error>>)
      requires Valid()
      modifies this, rounds
      ensures Valid()
      ensures match Spec.WarmupWitnessStep(config, old(View()), from, w, now, seed)
        case Panic => o == Panic && View() == old(View())
        case Done((t, r)) => o == Done(r) && View() == t
    {
      if Spec.WarmupWitnessStep(config, View(), from, w, now, seed).Done? {
        WarmupWitnessKeepsInv(config, View(), from, w, now, seed);
      }
      if Spec.IsHalted(runState) {
        return Done(Err(Spec.Halted));
      }
      if runState == Spec.RoundTrain {
        return Done(Ok(()));
      }
      if runState != Spec.Warmup {
        return Done(Err(Spec.InvalidRunState));
      }
      var witnessNodes := Spec.WitnessTarget(config, clients);
      if w.proof.index >= |clients| || clients[w.proof.index].id != from {
        return Done(Err(Spec.InvalidCommitteeProof));
      }
      var duplicate := HasWitnessed(from);
      if duplicate.Panic? {
        return Panic;
      }
      if duplicate.value {
        return Done(Err(Spec.DuplicateWitness));
      }
      if |rounds[roundsHead].witnesses| >= SOLANA_MAX_NUM_WITNESSES {
        return Done(Err(Spec.WitnessesFull));
      }
      rounds[roundsHead] := rounds[roundsHead].(witnesses := rounds[roundsHead].witnesses + [w]);
      if |rounds[roundsHead].witnesses| == witnessNodes {
        StartRoundTrain(now, seed, 0);
      }
      return Done(Ok(()));
    }

    method Witness(from: Spec.NodeIdentity, w: Spec.Witness, now: nat) returns (r: Result<(), Error>)
      requires Valid()
      modifies this, rounds
      ensures Valid() && Done((View(), r)) == Spec.WitnessStep(config, old(View()), from, w, now)
      ensures r != Err(Spec.WitnessesFull)
    {
      WitnessKeepsInv(config, View(), from, w, now);
      if Spec.IsHalted(runState) {
        return Err(Spec.Halted);
      }
      var witnessNodes := Spec.WitnessTarget(config, clients);
      if !Spec.InRound(runState) {
        return Err(Spec.InvalidRunState);
      }
      var selection := Spec.SelectionFor(config, rounds[roundsHead]);
      if selection.Err? {
        return Err(Spec.InvalidSelection);
      }
      var verified := Spec.VerifyWitnessForClient(config, selection.value, from, w.proof, clients);
      if !verified.value || w.proof.elected.IsFalse() {
        return Err(Spec.InvalidWitness);
      }
      var duplicate := HasWitnessed(from);
      if duplicate.value {
        return Err(Spec.DuplicateWitness);
      }
      if |rounds[roundsHead].witnesses| >= SOLANA_MAX_NUM_WITNESSES {
        return Err(Spec.WitnessesFull);
      }
      rounds[roundsHead] := rounds[roundsHead].(witnesses := rounds[roundsHead].witnesses + [w]);
      if |rounds[roundsHead].witnesses| == witnessNodes && runState != Spec.RoundWitness {
        ChangeState(now, Spec.RoundWitness);
      }
      return Ok(());
    }

    // ---------------------------------------------------------------- health checks

    method HealthCheck(checks: Spec.HealthChecks) returns (r: Result<nat, Error>)
      requires Valid()
      modifies this`clients
      ensures Valid() && Done((View(), r)) == Spec.HealthCheckStep(config, old(View()), checks)
    {
      HealthCheckKeepsInv(config, View(), checks);
      if Spec.IsHalted(runState) {
        return Err(Spec.Halted);
      }
      if rounds[roundsHead].height < 2 {
        return Err(Spec.InvalidHealthCheck);
      }
      CheckAllMeaning(config, View(), checks);
      var refused := FirstRefusal(checks);
      if refused.Some? {
        return Err(refused.value);
      }
      DropAllMeaning(clients, checks);
      var dropped := DropNamed(checks);
      return Ok(dropped);
    }

    method FirstRefusal(checks: Spec.HealthChecks) returns (e: Option<Error>)
      requires Shape() && Spec.CheckAll(config, View(), checks).Done?
      ensures Spec.CheckAll(config, View(), checks).value == if e.None? then Ok(()) else Err(e.value)
    {
      for i := 0 to |checks|
        invariant Spec.CheckAll(config, View(), checks) == Spec.CheckAll(config, View(), checks[i..])
      {
        assert checks[i..][1..] == checks[i + 1..];
        var healthy := Spec.ClientHealthy(config, View(), checks[i].0, checks[i].1).value;
        if healthy.Err? {
          return Some(healthy.error);
        }
        if healthy.value {
          return Some(Spec.InvalidHealthCheck);
        }
      }
      return None;
    }

    method DropNamed(checks: Spec.HealthChecks) returns (dropped: nat)
      requires Shape() && forall k :: 0 <= k < |checks| ==> checks[k].1.index < |clients|
      modifies this`clients
      ensures Spec.DropAll(old(clients), checks) == Done((clients, dropped))
    {
      dropped := 0;
      ghost var all := clients;
      for i := 0 to |checks|
        invariant |clients| == |all|
        invariant Spec.DropAll(all, checks[..i]) == Done((clients, dropped))
      {
        assert checks[..i + 1][..i] == checks[..i];
        var index := checks[i].1.index;
        if clients[index].state == Spec.Healthy {
          clients := clients[index := clients[index].(state := Spec.Dropped)];
          dropped := dropped + 1;
        }
      }
      assert checks[..|checks|] == checks;
    }
  }

  // The list while it is being withdrawn, one client further.
  lemma WithdrawnStep(all: seq<Spec.Client>, i: nat)
    requires i < |all|
    ensures var now := Spec.WithdrawnClients(all[..i]) + all[i..];
      Spec.WithdrawnClients(all[..i + 1]) + all[i + 1..] ==
        if now[i].state == Spec.Healthy then now[i := now[i].(state := Spec.Withdrawn)] else now
  {
    assert all[..i + 1][..i] == all[..i];
    var now, next := Spec.WithdrawnClients(all[..i]) + all[i..], Spec.WithdrawnClients(all[..i + 1]) + all[i + 1..];
    assert now[i] == all[i];
    forall k | 0 <= k < |all| && k != i
      ensures next[k] == now[k]
    {
    }
  }

  lemma MoveNext(clients: seq<Spec.Client>, i: nat, height: nat)
    requires i < |clients|
    ensures Spec.Kept(clients[..i + 1]) ==
      Spec.Kept(clients[..i]) + if clients[i].state == Spec.Healthy then [clients[i]] else []
    ensures Spec.Leaving(clients[..i + 1], height) ==
      Spec.Leaving(clients[..i], height) + if clients[i].state == Spec.Healthy then [] else [clients[i].(exitedHeight := height)]
  {
    assert clients[..i + 1][..i] == clients[..i];
  }

  lemma {:induction false} LeavingGrows(clients: seq<Spec.Client>, i: nat, height: nat)
    requires i <= |clients|
    ensures |Spec.Leaving(clients[..i], height)| <= |Spec.Leaving(clients, height)|
    decreases |clients|
  {
    if i < |clients| {
      var front := clients[..|clients| - 1];
      assert front[..i] == clients[..i];
      LeavingGrows(front, i, height);
    } else {
      assert clients[..i] == clients;
    }
  }
}
