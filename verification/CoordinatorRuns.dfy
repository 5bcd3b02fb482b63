/** Whole runs: any sequence of operations from an initial state, with a history of what happened.
    The history is bookkeeping for the statements; the coordinator never sees it. */
module CoordinatorRuns {
  import Behaviours
  import opened CoordinatorSpec
  import opened Sequences
  import opened CoordinatorInvariants
  import opened CoordinatorEffects
  import opened ClientOrder
  import opened DataSelection

  /** Of the epoch, since it entered Warmup: `roster`, who was there; `left`, who left in each compaction that
      let somebody go; `starts[k]`, the client list when round k started; `convicted`, who was successfully
      ejected. Of the whole run: `log`, first data index and size of every round, and `trainers`, its shuffled
      trainers. */
  datatype History = History(
    roster: multiset<NodeIdentity>, left: seq<seq<NodeIdentity>>, starts: seq<seq<NodeIdentity>>,
    convicted: set<NodeIdentity>, log: seq<(nat, nat)>, trainers: seq<seq<NodeIdentity>>)

  datatype Traced = Traced(s: State, h: History)

  // Those who left between two states are one more batch.
  ghost function LeftAfter(left: seq<seq<NodeIdentity>>, s: State, t: State): (r: seq<seq<NodeIdentity>>)
  {
    if |s.exited| < |t.exited| then left + [Ids(t.exited[|s.exited|..])] else left
  }

  ghost function Observe(c: Config, h: History, s: State, op: Op, t: State): (r: History)
  {
    if EntersWarmup(s, t) then h.(roster := multiset(Ids(t.clients)), left := [], starts := [], convicted := {})
    else
      var h1 := h.(
        left := LeftAfter(h.left, s, t),
        convicted := h.convicted + if op.Eject? && EjectStep(s, op.index).1.Ok? then {s.clients[op.index].id} else {});
      if StartsRound(s, t) then
        h1.(starts := h.starts + [Ids(t.clients)],
            log := h.log + [(Current(t).dataIndex, BatchAt(c, Current(t).dataIndex))],
            trainers := h.trainers + [RoundTrainers(c, t)])
      else h1
  }

  ghost function Step(c: Config, x: Traced, op: Op): (y: Traced)
  {
    var t := After(c, x.s, op);
    Traced(t, Observe(c, x.h, x.s, op, t))
  }

  ghost function Begin(s: State): (x: Traced)
  {
    Traced(s, History(multiset{}, [], [], {}, [], []))
  }

  // ------------------------------------------------------------------ what the history means

  ghost predicate RosterKept(x: Traced) { Roster(x.s) == x.h.roster }

  // A starting list is accounted for by the live clients, in their order, and by those that left since, batch
  // after batch.
  ghost predicate Accounts(
    clients: seq<Client>, exited: seq<Client>, left: seq<seq<NodeIdentity>>, start: seq<NodeIdentity>)
  {
    && |clients| <= |start| <= |clients| + |exited|
    && Arranged(Ids(clients), Ids(exited[|clients| + |exited| - |start|..]), left, start)
  }

  // The recorded batches are the exits.
  ghost predicate LeftIsGone(left: seq<seq<NodeIdentity>>, exited: seq<Client>)
  {
    forall id :: Turn(left, id) > 0 <==> id in Ids(exited)
  }

  // A round was started with n clients, and they are the ones of `start`.
  ghost predicate KnownAs(s: State, left: seq<seq<NodeIdentity>>, start: seq<NodeIdentity>, n: nat)
  {
    |start| == n && Accounts(s.clients, s.exited, left, start)
  }

  ghost predicate StartKnown(x: Traced, back: nat)
    requires InWindow(x.s, back) && |x.h.starts| == Current(x.s).height + 1
  {
    KnownAs(x.s, x.h.left, x.h.starts[Current(x.s).height - back], RoundBack(x.s, back).clientsLen)
  }

  ghost predicate StartsKnown(x: Traced)
  {
    && |x.h.starts| == (if Started(x.s) then Current(x.s).height + 1 else 0)
    && (Started(x.s) ==> forall back: nat :: InWindow(x.s, back) ==> StartKnown(x, back))
  }

  ghost predicate ConvictionsStand(x: Traced) { x.h.convicted <= AllEjected(x.s) }

  // Entry i of the log is the round of step i + 1.
  ghost predicate LogComplete(c: Config, x: Traced)
  {
    |x.h.log| == RoundsSoFar(x.s) && LogIsRight(c, x.h.log)
  }

  ghost predicate LogIsRight(c: Config, log: seq<(nat, nat)>)
  {
    forall i :: 0 <= i < |log| ==> log[i] == (StepStart(c, i + 1), BatchAt(c, StepStart(c, i + 1)))
  }

  // Somebody trains unless everybody verifies, and nobody is listed twice.
  ghost predicate TrainersOk(c: Config, ids: seq<NodeIdentity>)
  {
    (ids != [] <==> c.verificationPercent < 100) && Distinct(ids)
  }

  ghost predicate TrainersRight(c: Config, trainers: seq<seq<NodeIdentity>>)
  {
    forall i :: 0 <= i < |trainers| ==> TrainersOk(c, trainers[i])
  }

  ghost predicate TrainersKnown(c: Config, x: Traced)
  {
    && |x.h.trainers| == RoundsSoFar(x.s) && TrainersRight(c, x.h.trainers)
    && (InRound(x.s.runState) ==> |x.h.trainers| > 0 && x.h.trainers[|x.h.trainers| - 1] == RoundTrainers(c, x.s))
  }

  ghost predicate TracedInv(c: Config, x: Traced)
  {
    && Inv(c, x.s) && RosterKept(x) && LeftIsGone(x.h.left, x.s.exited) && StartsKnown(x) && ConvictionsStand(x)
    && LogComplete(c, x) && TrainersKnown(c, x)
  }

  lemma BeginInv(c: Config, s: State)
    requires ConfigOk(c) && Init(c, s)
    ensures TracedInv(c, Begin(s))
  {
    InitInv(c, s);
  }

  // ------------------------------------------------------------------ every step keeps it

  lemma IdsConcat(a: seq<Client>, b: seq<Client>)
    ensures Ids(a + b) == Ids(a) + Ids(b)
  {
  }

  lemma ExitsKeepRoster(clients: seq<Client>, exited: seq<Client>, clients': seq<Client>, exited': seq<Client>)
    requires exited <= exited'
    requires multiset(Ids(clients')) + multiset(Ids(exited'[|exited|..])) == multiset(Ids(clients))
    ensures multiset(Ids(clients')) + multiset(Ids(exited')) == multiset(Ids(clients)) + multiset(Ids(exited))
  {
    IdsConcat(exited, exited'[|exited|..]);
    assert exited' == exited + exited'[|exited|..];
  }

  lemma ShrinkKeepsRoster(s: State, t: State)
    requires Shrinks(s, t)
    ensures Roster(t) == Roster(s)
  {
    ExitsKeepRoster(s.clients, s.exited, t.clients, t.exited);
  }

  lemma RosterStep(c: Config, x: Traced, op: Op)
    requires RosterKept(x) && StepEffect(x.s, After(c, x.s, op))
    ensures RosterKept(Step(c, x, op))
  {
    var s, t := x.s, After(c, x.s, op);
    if EntersWarmup(s, t) {
      assert Ids(t.exited) == [];
    } else {
      ShrinkKeepsRoster(s, t);
    }
  }

  lemma LeftStep(s: State, t: State, left: seq<seq<NodeIdentity>>)
    requires LeftIsGone(left, s.exited) && s.exited <= t.exited
    ensures LeftIsGone(LeftAfter(left, s, t), t.exited)
  {
    if |s.exited| < |t.exited| {
      var more := t.exited[|s.exited|..];
      assert t.exited == s.exited + more;
      IdsConcat(s.exited, more);
      forall id
        ensures Turn(left + [Ids(more)], id) > 0 <==> id in Ids(t.exited)
      {
        TurnPush(left, Ids(more), id);
      }
    } else {
      assert t.exited == s.exited;
    }
  }

  // One earlier round, carried over a compaction.
  lemma AccountsCarried(
    clients: seq<Client>, exited: seq<Client>, left: seq<seq<NodeIdentity>>, start: seq<NodeIdentity>,
    clients': seq<Client>, more: seq<Client>)
    requires |clients'| + |more| == |clients| && Splits(Ids(clients), Ids(clients'), Ids(more))
    requires Accounts(clients, exited, left, start)
    ensures Accounts(clients', exited + more, left + [Ids(more)], start)
  {
    var cut := |clients| + |exited| - |start|;
    assert (exited + more)[cut..] == exited[cut..] + more;
    IdsConcat(exited[cut..], more);
    ArrangedNext(Ids(clients), Ids(exited[cut..]), left, start, Ids(clients'), Ids(more));
  }

  lemma AccountsKept(
    clients: seq<Client>, exited: seq<Client>, left: seq<seq<NodeIdentity>>, start: seq<NodeIdentity>, clients': seq<Client>)
    requires Ids(clients') == Ids(clients) && Accounts(clients, exited, left, start)
    ensures Accounts(clients', exited, left, start)
  {
    assert |clients'| == |Ids(clients')| == |clients|;
  }

  lemma ListsCarried(
    clients: seq<Client>, exited: seq<Client>, left: seq<seq<NodeIdentity>>, start: seq<NodeIdentity>,
    clients': seq<Client>, exited': seq<Client>)
    requires Moves(clients, exited, clients', exited') && Accounts(clients, exited, left, start)
    ensures Accounts(clients', exited', if |exited| < |exited'| then left + [Ids(exited'[|exited|..])] else left, start)
  {
    var more := exited'[|exited|..];
    assert exited' == exited + more;
    if more == [] {
      OutsideNobody(Ids(clients));
      assert Ids(more) == [];
      AccountsKept(clients, exited, left, start, clients');
    } else {
      AccountsCarried(clients, exited, left, start, clients', more);
    }
  }

  lemma StartCarried(
    s: State, t: State, left: seq<seq<NodeIdentity>>, left': seq<seq<NodeIdentity>>, start: seq<NodeIdentity>, n: nat)
    requires Moves(s.clients, s.exited, t.clients, t.exited) && KnownAs(s, left, start, n)
    requires left' == LeftAfter(left, s, t)
    ensures KnownAs(t, left', start, n)
  {
    ListsCarried(s.clients, s.exited, left, start, t.clients, t.exited);
  }

  lemma SameStartKnown(x: Traced, y: Traced, back: nat)
    requires InWindow(x.s, back) && |x.h.starts| == Current(x.s).height + 1
    requires InWindow(y.s, back) && Current(y.s).height == Current(x.s).height && y.h.starts == x.h.starts
    requires SameRound(RoundBack(x.s, back), RoundBack(y.s, back))
    requires KnownAs(y.s, y.h.left, x.h.starts[Current(x.s).height - back], RoundBack(x.s, back).clientsLen)
    ensures StartKnown(y, back)
  {
  }

  lemma StartsStepSame(x: Traced, y: Traced)
    requires StartsKnown(x) && Moves(x.s.clients, x.s.exited, y.s.clients, y.s.exited) && SameRounds(x.s, y.s) && y.h.starts == x.h.starts
    requires y.h.left == LeftAfter(x.h.left, x.s, y.s)
    ensures StartsKnown(y)
  {
    assert SameRound(RoundBack(x.s, 0), RoundBack(y.s, 0));
    forall back: nat | Started(y.s) && InWindow(y.s, back)
      ensures StartKnown(y, back)
    {
      assert InWindow(x.s, back) && StartKnown(x, back);
      assert SameRound(RoundBack(x.s, back), RoundBack(y.s, back));
      StartCarried(x.s, y.s, x.h.left, y.h.left, x.h.starts[Current(x.s).height - back], RoundBack(x.s, back).clientsLen);
      SameStartKnown(x, y, back);
    }
  }

  lemma NewestStartKnown(y: Traced)
    requires |y.h.starts| == Current(y.s).height + 1 && y.h.starts[Current(y.s).height] == Ids(y.s.clients)
    requires Current(y.s).clientsLen == |y.s.clients|
    requires NoRepeats(Roster(y.s)) && LeftIsGone(y.h.left, y.s.exited)
    ensures StartKnown(y, 0)
  {
    var ids := Ids(y.s.clients);
    assert RoundBack(y.s, 0) == Current(y.s);
    forall i | 0 <= i < |ids|
      ensures Turn(y.h.left, ids[i]) == 0
    {
      LiveIsNotGone(y.s, ids[i]);
    }
    ArrangedNew(ids, y.h.left);
    assert Ids(y.s.exited[|y.s.exited|..]) == [];
  }

  // An earlier round is one further back once another is started.
  lemma EarlierStartKnown(x: Traced, y: Traced, back: nat)
    requires InWindow(x.s, back) && |x.h.starts| == Current(x.s).height + 1
    requires InWindow(y.s, back + 1) && Current(y.s).height == Current(x.s).height + 1
    requires |y.h.starts| == |x.h.starts| + 1 && y.h.starts[..|x.h.starts|] == x.h.starts
    requires SameRound(RoundBack(x.s, back), RoundBack(y.s, back + 1))
    requires KnownAs(y.s, y.h.left, x.h.starts[Current(x.s).height - back], RoundBack(x.s, back).clientsLen)
    ensures StartKnown(y, back + 1)
  {
    var k := Current(x.s).height - back;
    assert y.h.starts[..|x.h.starts|][k] == y.h.starts[k];
  }

  lemma EarlierStartStays(x: Traced, y: Traced, back: nat)
    requires InWindow(x.s, back) && |x.h.starts| == Current(x.s).height + 1 && StartKnown(x, back)
    requires InWindow(y.s, back + 1) && Current(y.s).height == Current(x.s).height + 1
    requires SameRound(RoundBack(x.s, back), RoundBack(y.s, back + 1))
    requires Moves(x.s.clients, x.s.exited, y.s.clients, y.s.exited)
    requires y.h.starts == x.h.starts + [Ids(y.s.clients)] && y.h.left == LeftAfter(x.h.left, x.s, y.s)
    ensures StartKnown(y, back + 1)
  {
    StartCarried(x.s, y.s, x.h.left, y.h.left, x.h.starts[Current(x.s).height - back], RoundBack(x.s, back).clientsLen);
    EarlierStartKnown(x, y, back);
  }

  // A round after which one more was started.
  lemma BeforeMore(x: Traced, y: Traced, back: nat)
    requires StartsKnown(x) && Moves(x.s.clients, x.s.exited, y.s.clients, y.s.exited) && OneMoreRound(x.s, y.s)
    requires (!Started(x.s) ==> Current(x.s).height == 0) && 0 < back && InWindow(y.s, back)
    requires y.h.starts == x.h.starts + [Ids(y.s.clients)] && y.h.left == LeftAfter(x.h.left, x.s, y.s)
    ensures |y.h.starts| == Current(y.s).height + 1 && StartKnown(y, back)
  {
    assert InWindow(x.s, back - 1) && StartKnown(x, back - 1);
    assert SameRound(RoundBack(x.s, back - 1), RoundBack(y.s, back));
    EarlierStartStays(x, y, back - 1);
  }

  lemma StartsStepMore(x: Traced, y: Traced)
    requires StartsKnown(x) && Moves(x.s.clients, x.s.exited, y.s.clients, y.s.exited) && OneMoreRound(x.s, y.s)
    requires (!Started(x.s) ==> Current(x.s).height == 0) && Started(y.s)
    requires y.h.starts == x.h.starts + [Ids(y.s.clients)] && y.h.left == LeftAfter(x.h.left, x.s, y.s)
    requires NoRepeats(Roster(y.s)) && LeftIsGone(y.h.left, y.s.exited)
    ensures StartsKnown(y)
  {
    NewestStartKnown(y);
    forall back: nat | InWindow(y.s, back)
      ensures StartKnown(y, back)
    {
      if back > 0 {
        BeforeMore(x, y, back);
      }
    }
  }

  lemma StartsStep(c: Config, x: Traced, op: Op)
    requires ConfigOk(c) && StartsKnown(x) && Inv(c, x.s) && Inv(c, After(c, x.s, op))
    requires StepEffect(x.s, After(c, x.s, op)) && LeftIsGone(x.h.left, x.s.exited)
    ensures StartsKnown(Step(c, x, op)) && LeftIsGone(Step(c, x, op).h.left, Step(c, x, op).s.exited)
  {
    var y := Step(c, x, op);
    if EntersWarmup(x.s, y.s) {
      assert Ids(y.s.exited) == [];
    } else {
      LeftStep(x.s, y.s, x.h.left);
      if StartsRound(x.s, y.s) {
        StartsStepMore(x, y);
      } else {
        StartsStepSame(x, y);
      }
    }
  }

  lemma EjectConvicts(c: Config, s: State, op: Op)
    requires op.Eject? && EjectStep(s, op.index).1.Ok?
    ensures op.index < |s.clients| && s.clients[op.index].id in EjectedIds(After(c, s, op).clients)
  {
    var t := After(c, s, op);
    assert t.clients[op.index] in t.clients;
  }

  lemma EjectedStay(s: State, t: State)
    requires StepEffect(s, t) && !EntersWarmup(s, t)
    ensures AllEjected(s) <= AllEjected(t)
  {
  }

  lemma ConvictionStep(c: Config, x: Traced, op: Op)
    requires ConvictionsStand(x) && StepEffect(x.s, After(c, x.s, op))
    ensures ConvictionsStand(Step(c, x, op))
  {
    if op.Eject? && EjectStep(x.s, op.index).1.Ok? {
      EjectConvicts(c, x.s, op);
    }
    if !EntersWarmup(x.s, After(c, x.s, op)) {
      EjectedStay(x.s, After(c, x.s, op));
    }
  }

  // In a round the data index is the one the step count determines.
  lemma RoundDataIndex(c: Config, s: State)
    requires Inv(c, s) && InRound(s.runState)
    ensures Current(s).dataIndex == StepStart(c, s.step)
  {
    assert InWindow(s, 0) && RoundFacts(c, s, 0);
  }

  lemma LogStep(c: Config, x: Traced, op: Op)
    requires LogComplete(c, x) && StepEffect(x.s, After(c, x.s, op))
    requires StartsRound(x.s, After(c, x.s, op)) ==>
      Current(After(c, x.s, op)).dataIndex == StepStart(c, After(c, x.s, op).step)
    ensures LogComplete(c, Step(c, x, op))
  {
    var t, y := After(c, x.s, op), Step(c, x, op);
    if StartsRound(x.s, t) {
      assert !EntersWarmup(x.s, t);
      LogPush(c, x.h.log, Current(t).dataIndex);
    } else {
      assert y.h.log == x.h.log;
    }
  }

  lemma LogPush(c: Config, log: seq<(nat, nat)>, dataIndex: nat)
    requires LogIsRight(c, log) && dataIndex == StepStart(c, |log| + 1)
    ensures LogIsRight(c, log + [(dataIndex, BatchAt(c, dataIndex))])
  {
  }

  // In a round the selection is accepted unless more than everybody should verify, and it has a trainer exactly
  // when not everybody does.
  lemma TrainersOfRound(c: Config, s: State)
    requires ConfigOk(c) && Inv(c, s) && InRound(s.runState)
    ensures TrainersOk(c, RoundTrainers(c, s))
  {
    assert InWindow(s, 0) && RoundFacts(c, s, 0);
    match SelectionFor(c, Current(s))
    case Err(_) =>
    case Ok(sel) =>
      RoundHasTrainersIff(c, s, sel);
      ShuffledTrainersFacts(c, s, sel);
  }

  // Within a round the trainers stay the same.
  lemma TrainersStay(c: Config, s: State, t: State)
    requires SameRound(Current(s), Current(t)) && Ids(t.clients) == Ids(s.clients)
    ensures RoundTrainers(c, t) == RoundTrainers(c, s)
  {
    assert |t.clients| == |Ids(t.clients)| == |Ids(s.clients)| == |s.clients|;
  }

  lemma TrainersOfNewRound(c: Config, x: Traced, y: Traced)
    requires TrainersKnown(c, x) && TrainersOk(c, RoundTrainers(c, y.s))
    requires RoundsSoFar(y.s) == RoundsSoFar(x.s) + 1 && y.h.trainers == x.h.trainers + [RoundTrainers(c, y.s)]
    ensures TrainersKnown(c, y)
  {
  }

  lemma TrainersOfSameRound(c: Config, x: Traced, y: Traced)
    requires TrainersKnown(c, x) && KeepsPlaces(x.s, y.s) && !StartsRound(x.s, y.s)
    requires RoundsSoFar(y.s) == RoundsSoFar(x.s) && y.h.trainers == x.h.trainers
    requires InRound(y.s.runState) ==> SameRound(Current(x.s), Current(y.s))
    ensures TrainersKnown(c, y)
  {
    if InRound(y.s.runState) {
      TrainersStay(c, x.s, y.s);
    }
  }

  lemma TrainersStep(c: Config, x: Traced, op: Op)
    requires ConfigOk(c) && TrainersKnown(c, x) && Inv(c, After(c, x.s, op)) && StepEffect(x.s, After(c, x.s, op))
    ensures TrainersKnown(c, Step(c, x, op))
  {
    var y := Step(c, x, op);
    if StartsRound(x.s, y.s) {
      TrainersOfRound(c, y.s);
      TrainersOfNewRound(c, x, y);
    } else {
      if !EntersWarmup(x.s, y.s) {
        assert SameRound(RoundBack(x.s, 0), RoundBack(y.s, 0));
      }
      TrainersOfSameRound(c, x, y);
    }
  }

  lemma StepKeepsTracedInv(c: Config, x: Traced, op: Op)
    requires ConfigOk(c) && TracedInv(c, x) && OpOk(op)
    ensures TracedInv(c, Step(c, x, op))
  {
    StepKeepsInv(c, x.s, op);
    StepHasEffect(c, x.s, op);
    RosterStep(c, x, op);
    StartsStep(c, x, op);
    ConvictionStep(c, x, op);
    if StartsRound(x.s, After(c, x.s, op)) {
      RoundDataIndex(c, After(c, x.s, op));
    }
    LogStep(c, x, op);
    TrainersStep(c, x, op);
  }

  // ------------------------------------------------------------------ runs

  ghost predicate Next(c: Config, x: Traced, op: Op, y: Traced) { OpOk(op) && y == Step(c, x, op) }

  lemma NextKeepsTracedInv(c: Config, x: Traced, op: Op, y: Traced)
    requires ConfigOk(c) && TracedInv(c, x) && Next(c, x, op, y)
    ensures TracedInv(c, y)
  {
    StepKeepsTracedInv(c, x, op);
  }

  ghost function NextOf(c: Config): (next: (Traced, Op, Traced) -> bool)
  {
    (x, op, y) => Next(c, x, op, y)
  }

  // The states a sequence of operations goes through.
  ghost predicate IsRun(c: Config, xs: seq<Traced>, ops: seq<Op>) { Behaviours.Linked(NextOf(c), xs, ops) }

  ghost predicate FromInit(c: Config, x: Traced) { Init(c, x.s) && x == Begin(x.s) }

  lemma InitTracedInv(c: Config, x: Traced)
    requires ConfigOk(c) && FromInit(c, x)
    ensures TracedInv(c, x)
  {
    BeginInv(c, x.s);
  }

  lemma RunNext(c: Config, xs: seq<Traced>, ops: seq<Op>, i: nat)
    requires IsRun(c, xs, ops) && i < |ops|
    ensures Next(c, xs[i], ops[i], xs[i + 1])
  {
    assert NextOf(c)(xs[i], ops[i], xs[i + 1]);
  }

  lemma TracedInvIsKept(c: Config)
    requires ConfigOk(c)
    ensures forall x, op, y :: TracedInv(c, x) && NextOf(c)(x, op, y) ==> TracedInv(c, y)
  {
    forall x, op, y | TracedInv(c, x) && NextOf(c)(x, op, y)
      ensures TracedInv(c, y)
    {
      NextKeepsTracedInv(c, x, op, y);
    }
  }

  // Every state of every run satisfies the invariant and agrees with its history.
  lemma RunKeepsTracedInv(c: Config, xs: seq<Traced>, ops: seq<Op>, k: nat)
    requires ConfigOk(c) && IsRun(c, xs, ops) && FromInit(c, xs[0]) && k < |xs|
    ensures TracedInv(c, xs[k])
  {
    InitTracedInv(c, xs[0]);
    TracedInvIsKept(c);
    Behaviours.Throughout(NextOf(c), x => TracedInv(c, x), xs, ops, k);
  }

  ghost predicate Reachable(c: Config, x: Traced)
  {
    exists xs, ops :: IsRun(c, xs, ops) && FromInit(c, xs[0]) && xs[|ops|] == x
  }

  lemma ReachableInv(c: Config, x: Traced)
    requires ConfigOk(c) && Reachable(c, x)
    ensures TracedInv(c, x)
  {
    var xs, ops :| IsRun(c, xs, ops) && FromInit(c, xs[0]) && xs[|ops|] == x;
    RunKeepsTracedInv(c, xs, ops, |ops|);
  }

  lemma RunExtends(c: Config, xs: seq<Traced>, ops: seq<Op>, op: Op, y: Traced)
    requires IsRun(c, xs, ops) && Next(c, xs[|ops|], op, y)
    ensures IsRun(c, xs + [y], ops + [op])
  {
    Behaviours.LinkedExtends(NextOf(c), xs, ops, op, y);
  }

  lemma ReachableStep(c: Config, x: Traced, op: Op)
    requires ConfigOk(c) && Reachable(c, x) && OpOk(op)
    ensures Reachable(c, Step(c, x, op))
  {
    var xs, ops :| IsRun(c, xs, ops) && FromInit(c, xs[0]) && xs[|ops|] == x;
    var y := Step(c, x, op);
    RunExtends(c, xs, ops, op, y);
    assert (xs + [y])[|ops + [op]|] == y && (xs + [y])[0] == xs[0];
  }
}
