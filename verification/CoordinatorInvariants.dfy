/** What every reachable coordinator state satisfies, and that every operation keeps it.
    `Inv` is split into four groups so that each step is checked against one group at a time. */
module CoordinatorInvariants {
  import opened Sequences
  import opened CoordinatorSpec
  import opened ClientOrder

  // ------------------------------------------------------------------ vocabulary

  // The data index at which step `step` of the run starts: the sizes of all earlier steps.
  function StepStart(c: Config, step: nat): (d: nat)
  {
    if step <= 1 then 0 else StepStart(c, step - 1) + BatchAt(c, StepStart(c, step - 1))
  }

  function Ids(clients: seq<Client>): (r: seq<NodeIdentity>)
    ensures |r| == |clients|
    ensures forall i :: 0 <= i < |r| ==> r[i] == clients[i].id
  {
    seq(|clients|, i requires 0 <= i < |clients| => clients[i].id)
  }

  // Everyone who took part in the epoch, still here or gone.
  ghost function Roster(s: State): (m: multiset<NodeIdentity>)
  {
    multiset(Ids(s.clients)) + multiset(Ids(s.exited))
  }

  ghost predicate NoRepeats(m: multiset<NodeIdentity>) { forall id :: m[id] <= 1 }

  // A round has been started since the epoch state was last zeroed.
  predicate Started(s: State) { Current(s).clientsLen > 0 }

  // The ring slot `back` rounds before the head.
  function Back(head: Head, back: nat): (h: Head)
    requires back < NUM_STORED_ROUNDS
  {
    if head >= back then head - back else head + NUM_STORED_ROUNDS - back
  }

  function RoundBack(s: State, back: nat): (r: Round)
    requires back < NUM_STORED_ROUNDS
  {
    s.rounds[Back(s.roundsHead, back)]
  }

  // `back` names a round of this epoch that the ring still holds.
  predicate InWindow(s: State, back: nat)
  {
    back < NUM_STORED_ROUNDS && back <= Current(s).height
  }

  // ------------------------------------------------------------------ the four groups

  ghost predicate ProgressInv(c: Config, s: State)
  {
    var h := Current(s).height;
    && 1 <= s.step <= c.totalSteps
    && (!IsHalted(s.runState) && s.runState != Cooldown ==> s.step < c.totalSteps)
    && (s.pendingPause ==> IsActive(s.runState))
    && (!IsActive(s.runState) ==> s.epochStartDataIndex == StepStart(c, s.step))
    && (s.runState == Warmup ==> s.firstRound && !Started(s) && s.startStep == s.step && s.lastStep == 0)
    && (InRound(s.runState) ==>
         Started(s) && (s.firstRound <==> h == 0) && s.step == s.startStep + h
         && (s.lastStep != 0 ==> s.step < s.lastStep <= s.step + 2))
    && (s.runState == Cooldown ==> Started(s) && !s.firstRound && s.step == s.startStep + h + 1)
  }

  ghost predicate RoundFacts(c: Config, s: State, back: nat)
    requires InWindow(s, back)
  {
    var r := RoundBack(s, back);
    && r.height == Current(s).height - back
    && r.dataIndex == StepStart(c, s.startStep + r.height)
    && c.minClients <= r.clientsLen <= SOLANA_MAX_NUM_CLIENTS
    && r.tieBreakerTasks == 0
    && (back > 0 ==> r.witnesses != [])
  }

  ghost predicate RingInv(c: Config, s: State)
  {
    && s.roundsHead == Current(s).height % NUM_STORED_ROUNDS
    && (!Started(s) ==> Current(s).height == 0)
    && (Started(s) ==> s.startStep >= 1)
    && (forall slot :: Current(s).height < slot < NUM_STORED_ROUNDS ==> s.rounds[slot] == ZERO_ROUND)
    && (Started(s) ==> forall back: nat :: InWindow(s, back) ==> RoundFacts(c, s, back))
  }

  ghost predicate ExitsOrdered(exited: seq<Client>, height: nat)
  {
    && (forall i, j :: 0 <= i < j < |exited| ==> exited[i].exitedHeight <= exited[j].exitedHeight)
    && (forall i :: 0 <= i < |exited| ==> exited[i].exitedHeight <= height)
  }

  ghost predicate MembersInv(c: Config, s: State)
  {
    && NoRepeats(Roster(s))
    && |s.clients| + |s.exited| <= SOLANA_MAX_NUM_CLIENTS
    && ExitsOrdered(s.exited, Current(s).height)
    && (s.runState == Warmup || InRound(s.runState) ==> c.minClients <= |s.clients|)
    && (InRound(s.runState) ==> |s.clients| == Current(s).clientsLen)
  }

  ghost predicate StoredOk(c: Config, round: Round)
  {
    var ws := round.witnesses;
    ws != [] ==>
      && SelectionFor(c, round).Ok?
      && var sel := SelectionFor(c, round).value;
      && (forall i :: 0 <= i < |ws| ==> ws[i].proof.index < sel.total && sel.Elected(c.sha256, ws[i].proof.index))
      && (forall i, j :: 0 <= i < j < |ws| ==> ws[i].proof.index != ws[j].proof.index)
  }

  ghost predicate WitnessInv(c: Config, s: State)
  {
    && (InRound(s.runState) ==> StoredOk(c, Current(s)))
    && (s.runState == Warmup ==> forall i :: 0 <= i < |Current(s).witnesses| ==>
         Current(s).witnesses[i].proof.index < |s.clients| + |s.exited|)
  }

  ghost predicate Inv(c: Config, s: State)
  {
    ProgressInv(c, s) && RingInv(c, s) && MembersInv(c, s) && WitnessInv(c, s)
  }

  // An empty epoch at step 1, not yet started or waiting for its first members.
  predicate Init(c: Config, s: State)
  {
    && (s.runState == Uninitialized || s.runState == Paused || s.runState == WaitingForMembers)
    && (s.runState == WaitingForMembers ==> 1 < c.totalSteps)
    && s.step == 1 && s.epochStartDataIndex == 0 && !s.pendingPause
    && s.rounds == ZERO_RING && s.roundsHead == 0 && s.clients == [] && s.exited == []
  }

  lemma InitInv(c: Config, s: State)
    requires ConfigOk(c) && Init(c, s)
    ensures Inv(c, s)
  {
  }

  // ------------------------------------------------------------------ client lists

  lemma {:induction false} MoveKeepsIds(clients: seq<Client>, height: nat)
    ensures multiset(Ids(Kept(clients))) + multiset(Ids(Leaving(clients, height))) == multiset(Ids(clients))
    ensures |Kept(clients)| + |Leaving(clients, height)| == |clients|
  {
    if clients != [] {
      var last := |clients| - 1;
      var front := clients[..last];
      MoveKeepsIds(front, height);
      assert Ids(clients) == Ids(front) + [clients[last].id];
      if clients[last].state == Healthy {
        assert Ids(Kept(clients)) == Ids(Kept(front)) + [clients[last].id];
        assert Leaving(clients, height) == Leaving(front, height);
      } else {
        assert Kept(clients) == Kept(front);
        assert Ids(Leaving(clients, height)) == Ids(Leaving(front, height)) + [clients[last].id];
      }
    }
  }

  lemma {:induction false} KeptAreHealthy(clients: seq<Client>)
    ensures forall x :: x in Kept(clients) <==> x in clients && x.state == Healthy
  {
    if clients != [] {
      var last := |clients| - 1;
      KeptAreHealthy(clients[..last]);
      assert clients == clients[..last] + [clients[last]];
    }
  }

  lemma {:induction false} LeavingAreUnhealthy(clients: seq<Client>, height: nat)
    ensures forall x :: x in Leaving(clients, height) ==> x.state != Healthy && x.exitedHeight == height
    ensures forall x :: x in clients && x.state != Healthy ==> x.(exitedHeight := height) in Leaving(clients, height)
  {
    if clients != [] {
      var last := |clients| - 1;
      LeavingAreUnhealthy(clients[..last], height);
      assert clients == clients[..last] + [clients[last]];
    }
  }

  lemma {:induction false} WithdrawKeepsIds(clients: seq<Client>)
    ensures Ids(WithdrawnClients(clients)) == Ids(clients)
    ensures forall i :: 0 <= i < |clients| ==>
      WithdrawnClients(clients)[i] == if clients[i].state == Healthy then clients[i].(state := Withdrawn) else clients[i]
  {
    if clients != [] {
      var last := |clients| - 1;
      WithdrawKeepsIds(clients[..last]);
    }
  }

  // Letting the leavers go never overflows the exit list and loses nobody.
  lemma MoveFits(s: State, height: nat)
    requires |s.clients| + |s.exited| <= SOLANA_MAX_NUM_CLIENTS
    ensures MoveClientsToExited(s, height).Done?
    ensures var t := MoveClientsToExited(s, height).value;
      && Roster(t) == Roster(s)
      && |t.clients| + |t.exited| == |s.clients| + |s.exited|
      && t == s.(clients := Kept(s.clients), exited := s.exited + Leaving(s.clients, height))
  {
    MoveKeepsIds(s.clients, height);
    assert Ids(s.exited + Leaving(s.clients, height)) == Ids(s.exited) + Ids(Leaving(s.clients, height));
  }

  lemma MoveKeepsOrder(exited: seq<Client>, clients: seq<Client>, height: nat)
    requires ExitsOrdered(exited, height)
    ensures ExitsOrdered(exited + Leaving(clients, height), height)
  {
    LeavingAreUnhealthy(clients, height);
    var more := exited + Leaving(clients, height);
    forall i | |exited| <= i < |more|
      ensures more[i].exitedHeight == height
    {
      assert more[i] in Leaving(clients, height);
    }
  }

  // ------------------------------------------------------------------ one place for each client

  lemma RepeatShows(s: State, i: nat, j: nat)
    requires i < j < |s.clients| && s.clients[i].id == s.clients[j].id
    ensures !NoRepeats(Roster(s))
  {
    RepeatCounts(Ids(s.clients), i, j);
    assert Roster(s)[s.clients[j].id] >= 2;
  }

  lemma OnePositionPerId(s: State, i: nat, j: nat)
    requires NoRepeats(Roster(s)) && i < |s.clients| && j < |s.clients|
    ensures s.clients[i].id == s.clients[j].id ==> i == j
  {
    if s.clients[i].id == s.clients[j].id && i != j {
      RepeatShows(s, if i < j then i else j, if i < j then j else i);
    }
  }

  lemma LiveIdsAreDistinct(s: State)
    requires NoRepeats(Roster(s))
    ensures Distinct(Ids(s.clients))
  {
    forall i, j | 0 <= i < j < |s.clients|
      ensures Ids(s.clients)[i] != Ids(s.clients)[j]
    {
      OnePositionPerId(s, i, j);
    }
  }

  // Nobody is both here and gone.
  lemma LiveIsNotGone(s: State, id: NodeIdentity)
    requires NoRepeats(Roster(s)) && id in Ids(s.clients)
    ensures id !in Ids(s.exited)
  {
    assert Roster(s)[id] == multiset(Ids(s.clients))[id] + multiset(Ids(s.exited))[id];
  }

  lemma {:induction false} KeptSplitsBy(clients: seq<Client>, who: seq<NodeIdentity>)
    requires forall i :: 0 <= i < |clients| ==> (clients[i].id in who <==> clients[i].state != Healthy)
    ensures Ids(Kept(clients)) == Outside(Ids(clients), who)
  {
    if clients != [] {
      var front, last := clients[..|clients| - 1], clients[|clients| - 1];
      KeptSplitsBy(front, who);
      IdsPush(front, last);
      IdsPush(Kept(front), last);
      assert clients == front + [last];
      SplitPush(Ids(front), last.id, who);
    }
  }

  lemma {:induction false} LeavingSplitsBy(clients: seq<Client>, height: nat, who: seq<NodeIdentity>)
    requires forall i :: 0 <= i < |clients| ==> (clients[i].id in who <==> clients[i].state != Healthy)
    ensures Ids(Leaving(clients, height)) == Among(Ids(clients), who)
  {
    if clients != [] {
      var front, last := clients[..|clients| - 1], clients[|clients| - 1];
      LeavingSplitsBy(front, height, who);
      IdsPush(front, last);
      IdsPush(Leaving(front, height), last.(exitedHeight := height));
      assert clients == front + [last];
      SplitPush(Ids(front), last.id, who);
    }
  }

  lemma IdsPush(clients: seq<Client>, x: Client)
    ensures Ids(clients + [x]) == Ids(clients) + [x.id] && Ids(clients + []) == Ids(clients)
  {
    assert clients + [] == clients;
  }

  lemma GoneIsUnhealthy(clients: seq<Client>, height: nat, i: nat)
    requires Distinct(Ids(clients)) && i < |clients|
    ensures clients[i].id in Ids(Leaving(clients, height)) <==> clients[i].state != Healthy
  {
    var gone := Leaving(clients, height);
    LeavingAreUnhealthy(clients, height);
    if clients[i].state != Healthy {
      var k :| 0 <= k < |gone| && gone[k] == clients[i].(exitedHeight := height);
      assert Ids(gone)[k] == clients[i].id;
    }
    if clients[i].id in Ids(gone) {
      var k :| 0 <= k < |gone| && Ids(gone)[k] == clients[i].id;
      var j := LeaverCameFrom(clients, height, k);
      assert Ids(clients)[i] == Ids(clients)[j];
    }
  }

  lemma {:induction false} LeaverCameFrom(clients: seq<Client>, height: nat, k: nat) returns (j: nat)
    requires k < |Leaving(clients, height)|
    ensures j < |clients| && clients[j].id == Leaving(clients, height)[k].id && clients[j].state != Healthy
  {
    var front, last := clients[..|clients| - 1], clients[|clients| - 1];
    if k < |Leaving(front, height)| {
      j := LeaverCameFrom(front, height, k);
    } else {
      j := |clients| - 1;
    }
  }

  // A compaction keeps the order of those who stay and of those who go.
  lemma MoveSplits(clients: seq<Client>, height: nat)
    requires Distinct(Ids(clients))
    ensures Splits(Ids(clients), Ids(Kept(clients)), Ids(Leaving(clients, height)))
  {
    forall i | 0 <= i < |clients|
      ensures clients[i].id in Ids(Leaving(clients, height)) <==> clients[i].state != Healthy
    {
      GoneIsUnhealthy(clients, height, i);
    }
    KeptSplitsBy(clients, Ids(Leaving(clients, height)));
    LeavingSplitsBy(clients, height, Ids(Leaving(clients, height)));
  }
}
