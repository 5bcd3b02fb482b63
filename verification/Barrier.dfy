/** The cancellable barrier, as the steps its threads take under the mutex. Each call of wait is one entry
    of a list: it is asleep on the condition variable, notified, or returned. */
module Barrier {
  import opened Wrappers
  import Behaviours

  // What the mutex guards.
  datatype Shared = Shared(count: nat, total: nat, generation: nat, cancelled: bool)

  datatype Entry = Refuse | Sleep(generation: nat) | Release(generation: nat)

  // wait up to its first return or its first sleep. The last thread to arrive releases the others.
  function EnterStep(s: Shared): (r: (Shared, Entry))
  {
    if s.cancelled then (s, Refuse)
    else if s.count + 1 < s.total then (s.(count := s.count + 1), Sleep(s.generation))
    else (s.(count := 0, generation := s.generation + 1), Release(s.generation))
  }

  datatype Verdict = SleepAgain | ReturnOk | ReturnErr

  // The loop test after a wake-up, and the return when it fails.
  function RecheckStep(s: Shared, generation: nat): (v: Verdict)
  {
    if s.count < s.total && s.generation == generation && !s.cancelled then SleepAgain
    else if s.cancelled then ReturnErr
    else ReturnOk
  }

  class CancellableBarrier {
    var count: nat
    const total: nat
    var generation: nat
    var cancelled: bool

    ghost function View(): (s: Shared)
      reads this
    {
      Shared(count, total, generation, cancelled)
    }

    constructor (n: nat)
      requires n > 0
      ensures View() == Shared(0, n, 0, false)
    {
      count, total, generation, cancelled := 0, n, 0, false;
    }

    method Enter() returns (r: Entry)
      modifies this
      ensures (View(), r) == EnterStep(old(View()))
    {
      if cancelled {
        return Refuse;
      }
      var mine := generation;
      count := count + 1;
      if count < total {
        r := Sleep(mine);
      } else {
        count := 0;
        generation := generation + 1;
        r := Release(mine);
      }
    }

    method Recheck(mine: nat) returns (v: Verdict)
      ensures v == RecheckStep(View(), mine)
    {
      if count < total && generation == mine && !cancelled {
        return SleepAgain;
      }
      if cancelled {
        return ReturnErr;
      }
      return ReturnOk;
    }

    method Cancel()
      modifies this
      ensures View() == old(View()).(cancelled := true)
    {
      cancelled := true;
    }
  }

  // ------------------------------------------------------------------ interleavings

  datatype Status = Asleep | Notified | Passed | Refused

  // A call of wait; generation is the one it arrived in, if it was counted at all.
  datatype Call = Call(generation: Option<nat>, status: Status)

  datatype World = World(shared: Shared, calls: seq<Call>)

  // A thread calls wait; a sleeping or notified call runs again; some thread cancels.
  datatype Step = Begin | Wake(call: nat) | Cancel

  function NotifyAll(calls: seq<Call>): (r: seq<Call>)
    ensures |r| == |calls|
    ensures forall i :: 0 <= i < |r| ==> r[i].generation == calls[i].generation
    ensures forall i :: 0 <= i < |r| ==> r[i].status == if calls[i].status == Asleep then Notified else calls[i].status
  {
    seq(|calls|, i requires 0 <= i < |calls| =>
      if calls[i].status == Asleep then calls[i].(status := Notified) else calls[i])
  }

  function BeginStep(w: World): (w': World)
  {
    var (s, entry) := EnterStep(w.shared);
    match entry
    case Refuse => World(s, w.calls + [Call(None, Refused)])
    case Sleep(g) => World(s, w.calls + [Call(Some(g), Asleep)])
    case Release(g) => World(s, NotifyAll(w.calls) + [Call(Some(g), Passed)])
  }

  // A call that has returned has no further step; a sleeping call may also wake without notice.
  predicate Enabled(w: World, step: Step)
  {
    step.Wake? ==> step.call < |w.calls| && w.calls[step.call].status in {Asleep, Notified} && w.calls[step.call].generation.Some?
  }

  function Act(w: World, step: Step): (w': World)
    requires Enabled(w, step)
  {
    match step
    case Begin => BeginStep(w)
    case Cancel => World(w.shared.(cancelled := true), NotifyAll(w.calls))
    case Wake(k) =>
      var status := match RecheckStep(w.shared, w.calls[k].generation.value)
        case SleepAgain => Asleep
        case ReturnOk => Passed
        case ReturnErr => Refused;
      w.(calls := w.calls[k := w.calls[k].(status := status)])
  }

  // How many calls were counted in generation g, and in all.
  function Arrivals(calls: seq<Call>, g: nat): (n: nat)
  {
    if calls == [] then 0
    else Arrivals(calls[..|calls| - 1], g) + if calls[|calls| - 1].generation == Some(g) then 1 else 0
  }

  function Counted(calls: seq<Call>): (n: nat)
  {
    if calls == [] then 0
    else Counted(calls[..|calls| - 1]) + if calls[|calls| - 1].generation.Some? then 1 else 0
  }

  lemma CountsPush(calls: seq<Call>, c: Call, g: nat)
    ensures Arrivals(calls + [c], g) == Arrivals(calls, g) + if c.generation == Some(g) then 1 else 0
    ensures Counted(calls + [c]) == Counted(calls) + if c.generation.Some? then 1 else 0
  {
    assert (calls + [c])[..|calls|] == calls;
  }

  ghost predicate SameGenerations(a: seq<Call>, b: seq<Call>)
  {
    |a| == |b| && forall i :: 0 <= i < |a| ==> a[i].generation == b[i].generation
  }

  lemma {:induction false} CountsFrame(a: seq<Call>, b: seq<Call>, g: nat)
    requires SameGenerations(a, b)
    ensures Arrivals(a, g) == Arrivals(b, g) && Counted(a) == Counted(b)
    decreases |a|
  {
    if a != [] {
      CountsFrame(a[..|a| - 1], b[..|b| - 1], g);
    }
  }

  // ------------------------------------------------------------------ the invariant

  // Generation g has its full complement, is filling, or is still to come.
  function Expected(s: Shared, g: nat): (n: nat)
  {
    if g < s.generation then s.total else if g == s.generation then s.count else 0
  }

  ghost predicate CallInv(s: Shared, c: Call)
  {
    && (c.status == Passed ==> c.generation.Some? && c.generation.value < s.generation)
    && (c.status in {Asleep, Notified} ==> c.generation.Some? && c.generation.value <= s.generation)
    && (c.status == Asleep ==> RecheckStep(s, c.generation.value) == SleepAgain)
  }

  ghost predicate Inv(w: World)
  {
    && w.shared.count < w.shared.total
    && (forall g: nat :: Arrivals(w.calls, g) == Expected(w.shared, g))
    && Counted(w.calls) == w.shared.generation * w.shared.total + w.shared.count
    && (forall i :: 0 <= i < |w.calls| ==> CallInv(w.shared, w.calls[i]))
  }

  lemma BeginKeepsCounts(w: World)
    requires Inv(w)
    ensures var w' := BeginStep(w);
      && w'.shared.count < w'.shared.total
      && (forall g: nat :: Arrivals(w'.calls, g) == Expected(w'.shared, g))
      && Counted(w'.calls) == w'.shared.generation * w'.shared.total + w'.shared.count
  {
    var (s, entry) := EnterStep(w.shared);
    var calls := if entry.Release? then NotifyAll(w.calls) else w.calls;
    var c := match entry case Refuse => Call(None, Refused) case Sleep(g) => Call(Some(g), Asleep) case Release(g) => Call(Some(g), Passed);
    forall g: nat
      ensures Arrivals(calls + [c], g) == Expected(s, g)
    {
      CountsFrame(calls, w.calls, g);
      CountsPush(calls, c, g);
    }
    CountsFrame(calls, w.calls, 0);
    CountsPush(calls, c, 0);
    OneGenerationMore(w.shared.generation, w.shared.total);
  }

  lemma OneGenerationMore(generation: nat, total: nat)
    ensures (generation + 1) * total == generation * total + total
  {
  }

  lemma BeginKeepsInv(w: World)
    requires Inv(w)
    ensures Inv(BeginStep(w))
  {
    BeginKeepsCounts(w);
  }

  lemma StatusKeepsInv(w: World, s: Shared, calls: seq<Call>)
    requires Inv(w) && SameGenerations(w.calls, calls) && s == w.shared.(cancelled := s.cancelled)
    requires forall i :: 0 <= i < |calls| ==> CallInv(s, calls[i])
    ensures Inv(World(s, calls))
  {
    forall g: nat
      ensures Arrivals(calls, g) == Expected(s, g)
    {
      CountsFrame(w.calls, calls, g);
    }
    CountsFrame(w.calls, calls, 0);
  }

  lemma StepKeepsInv(w: World, step: Step)
    requires Inv(w) && Enabled(w, step)
    ensures Inv(Act(w, step))
  {
    match step
    case Begin => BeginKeepsInv(w);
    case Cancel => StatusKeepsInv(w, w.shared.(cancelled := true), NotifyAll(w.calls));
    case Wake(k) =>
      assert CallInv(w.shared, w.calls[k]);
      StatusKeepsInv(w, w.shared, Act(w, step).calls);
  }

  // ------------------------------------------------------------------ runs

  ghost predicate Next(w: World, w': World)
  {
    exists step :: Enabled(w, step) && w' == Act(w, step)
  }

  ghost predicate IsRun(ws: seq<World>)
  {
    && ws != [] && ws[0].shared.total > 0 && ws[0] == World(Shared(0, ws[0].shared.total, 0, false), [])
    && forall i, j :: 0 <= i && j == i + 1 && j < |ws| ==> Next(ws[i], ws[j])
  }

  lemma RunKeepsInv(ws: seq<World>, k: nat)
    requires IsRun(ws) && k < |ws|
    ensures Inv(ws[k])
  {
    forall x, y | Inv(x) && Next(x, y)
      ensures Inv(y)
    {
      var step :| Enabled(x, step) && y == Act(x, step);
      StepKeepsInv(x, step);
    }
    Behaviours.Throughout((x, _: (), y) => Next(x, y), x => Inv(x), ws, seq(|ws| - 1, _ => ()), k);
  }

  // In every interleaving: a call returns Ok only from a generation in which exactly total calls arrived;
  // count is the number of arrivals in the current generation and below total; every counted call is in a
  // full generation or in the current one.
  lemma OkMeansAllArrived(ws: seq<World>, k: nat)
    requires IsRun(ws) && k < |ws|
    ensures var (s, calls) := (ws[k].shared, ws[k].calls);
      && s.count == Arrivals(calls, s.generation) < s.total
      && Counted(calls) == s.generation * s.total + s.count
      && forall i :: 0 <= i < |calls| && calls[i].status == Passed ==>
           calls[i].generation.Some? && Arrivals(calls, calls[i].generation.value) == s.total
  {
    RunKeepsInv(ws, k);
    var (s, calls) := (ws[k].shared, ws[k].calls);
    forall i | 0 <= i < |calls| && calls[i].status == Passed
      ensures calls[i].generation.Some? && Arrivals(calls, calls[i].generation.value) == s.total
    {
      assert CallInv(s, calls[i]);
    }
  }

  // No wake-up is lost: a call left asleep still has a reason to sleep. A call that runs again goes back to
  // sleep exactly while its generation is filling and the barrier is not cancelled, returns Err exactly when
  // it is cancelled, and otherwise Ok.
  lemma NoWakeupIsLost(ws: seq<World>, k: nat, call: nat)
    requires IsRun(ws) && k < |ws| && call < |ws[k].calls|
    requires ws[k].calls[call].status in {Asleep, Notified}
    ensures Enabled(ws[k], Wake(call))
    ensures var (s, c) := (ws[k].shared, ws[k].calls[call]);
      var after := Act(ws[k], Wake(call)).calls[call].status;
      && (c.status == Asleep ==> Arrivals(ws[k].calls, c.generation.value) < s.total && !s.cancelled)
      && (after == Refused <==> s.cancelled)
      && (after == Passed <==> !s.cancelled && Arrivals(ws[k].calls, c.generation.value) == s.total)
      && (after == Asleep <==> !s.cancelled && Arrivals(ws[k].calls, c.generation.value) < s.total)
  {
    RunKeepsInv(ws, k);
    assert CallInv(ws[k].shared, ws[k].calls[call]);
  }

  // Cancelled for good: nothing is counted any more and every call begun since has returned Err.
  ghost predicate CancelledSince(w: World, w': World)
  {
    && w'.shared == w.shared && w'.shared.cancelled && |w.calls| <= |w'.calls|
    && forall i :: |w.calls| <= i < |w'.calls| ==> w'.calls[i] == Call(None, Refused)
  }

  lemma {:induction false} CancelledRefusesLaterCalls(ws: seq<World>, i: nat, j: nat)
    requires IsRun(ws) && i <= j < |ws| && ws[i].shared.cancelled
    ensures CancelledSince(ws[i], ws[j])
    decreases j
  {
    if i < j {
      CancelledRefusesLaterCalls(ws, i, j - 1);
      assert Next(ws[j - 1], ws[j]);
    }
  }

  // A full generation can still report Err: a released call that runs again after a cancel.
  lemma ReleasedCallMayBeRefused() returns (ws: seq<World>)
    ensures IsRun(ws) && |ws| == 5 && !ws[2].shared.cancelled && Arrivals(ws[2].calls, 0) == ws[2].shared.total
    ensures ws[4].calls == [Call(Some(0), Refused), Call(Some(0), Passed)]
  {
    var w0 := World(Shared(0, 2, 0, false), []);
    var w1 := Act(w0, Begin);
    var w2 := Act(w1, Begin);
    var w3 := Act(w2, Cancel);
    var w4 := Act(w3, Wake(0));
    ws := [w0, w1, w2, w3, w4];
    ActIsNext(w0, Begin);
    ActIsNext(w1, Begin);
    ActIsNext(w2, Cancel);
    ActIsNext(w3, Wake(0));
    assert w2.calls == [Call(Some(0), Notified)] + [Call(Some(0), Passed)];
    CountsPush([], Call(Some(0), Notified), 0);
    CountsPush([Call(Some(0), Notified)], Call(Some(0), Passed), 0);
    assert [] + [Call(Some(0), Notified)] == [Call(Some(0), Notified)];
    forall i, j | 0 <= i && j == i + 1 && j < |ws|
      ensures Next(ws[i], ws[j])
    {
      assert i == 0 || i == 1 || i == 2 || i == 3;
    }
  }

  lemma ActIsNext(w: World, step: Step)
    requires Enabled(w, step)
    ensures Next(w, Act(w, step))
  {
  }
}
