/** Health checks: which rounds they read, and exactly whom they drop. */
module CoordinatorHealth {
  import opened Wrappers
  import opened Hashing
  import opened BloomFilters
  import opened CommitteeDraw
  import opened CoordinatorSpec
  import opened CoordinatorInvariants
  import opened CoordinatorSteps

  // ------------------------------------------------------------------ looking back in the ring

  // The previous round is the one of height h - 1, and the current one starts where it ended.
  lemma PreviousRoundIsPrevious(c: Config, s: State)
    requires Inv(c, s)
    ensures Current(s).height == 0 ==> PreviousRound(s) == None
    ensures Current(s).height > 0 ==>
      && Started(s) && PreviousRound(s) == Some(RoundBack(s, 1))
      && var r := RoundBack(s, 1);
      && r.height == Current(s).height - 1
      && r.dataIndex + BatchAt(c, r.dataIndex) == Current(s).dataIndex
      && r.clientsLen >= c.minClients && r.witnesses != []
  {
    if Current(s).height > 0 {
      assert InWindow(s, 0) && RoundFacts(c, s, 0);
      assert InWindow(s, 1) && RoundFacts(c, s, 1);
    }
  }

  // Two rounds back is right at height 0 and from height 2 on. At height 1 there is no such
  // round, and the lookup returns a slot that was never used.
  lemma PreviousPreviousRoundIff(c: Config, s: State)
    requires Inv(c, s)
    ensures Current(s).height != 1 <==>
      PreviousPreviousRound(s) ==
        if Current(s).height < 2 then None else Some(RoundBack(s, 2).(height := Current(s).height - 2))
    ensures Current(s).height == 1 ==> PreviousPreviousRound(s) == Some(ZERO_ROUND)
  {
    if Current(s).height >= 2 {
      assert InWindow(s, 2) && RoundFacts(c, s, 2);
    }
  }

  // ------------------------------------------------------------------ scores

  ghost function Vouchers(c: Config, id: NodeIdentity, ws: seq<Witness>): (r: set<nat>)
  {
    set k: nat | k < |ws| && Contains(c.fnv, ws[k].participantBloom, c.sha256(id.signer))
  }

  lemma {:induction false} ScoreIsCount(c: Config, id: NodeIdentity, ws: seq<Witness>)
    ensures Score(c, id, ws) == |Vouchers(c, id, ws)|
  {
    if ws != [] {
      var last := |ws| - 1;
      var front := ws[..last];
      ScoreIsCount(c, id, front);
      assert forall k :: 0 <= k < last ==> front[k] == ws[k];
      if Contains(c.fnv, ws[last].participantBloom, c.sha256(id.signer)) {
        assert Vouchers(c, id, ws) == Vouchers(c, id, front) + {last};
      } else {
        assert Vouchers(c, id, ws) == Vouchers(c, id, front);
      }
    } else {
      assert Vouchers(c, id, ws) == {};
    }
  }

  // The witness's participant filter was built by adding items that include this client's hash.
  ghost predicate WasAdded(c: Config, id: NodeIdentity, w: Witness, items: seq<Bytes>, empty: Bloom)
  {
    IsEmpty(empty) && w.participantBloom == AddedAll(c.fnv, empty, items) && c.sha256(id.signer) in items
  }

  // A client added to the filters of a set of witnesses scores at least the size of the set.
  lemma AddedClientsScore(
    c: Config, id: NodeIdentity, ws: seq<Witness>, who: set<nat>, items: seq<seq<Bytes>>, empties: seq<Bloom>)
    requires |items| == |ws| == |empties|
    requires forall k :: k in who ==> k < |ws| && WasAdded(c, id, ws[k], items[k], empties[k])
    ensures Score(c, id, ws) >= |who|
  {
    ScoreIsCount(c, id, ws);
    forall k | k in who
      ensures k in Vouchers(c, id, ws)
    {
      MembershipAfterAdds(c.fnv, empties[k], items[k], c.sha256(id.signer));
    }
    SubsetCount(who, Vouchers(c, id, ws));
  }

  // ------------------------------------------------------------------ one check

  // What a check that is not refused says: it names a client by its current place, the place was a
  // trainer's in the previous round, and too few of that round's witnesses vouch for the client.
  ghost predicate Indicts(c: Config, s: State, id: NodeIdentity, proof: CommitteeProof)
  {
    && PreviousRound(s).Some?
    && var round := PreviousRound(s).value;
    && VerifyClient(id, proof.index, s.clients)
    && proof.index < round.clientsLen
    && SelectionFor(c, round).Ok?
    && SelectionFor(c, round).value.VerifyCommittee(c.sha256, proof)
    && proof.committee == Trainer
    && WitnessQuorum(c, |round.witnesses|).Done?
    && Score(c, id, round.witnesses) < WitnessQuorum(c, |round.witnesses|).value
  }

  lemma CheckMeaning(c: Config, s: State, id: NodeIdentity, proof: CommitteeProof)
    requires ConfigOk(c) && Inv(c, s) && Current(s).height >= 1
    ensures ClientHealthy(c, s, id, proof).Done?
    ensures ClientHealthy(c, s, id, proof) == Done(Ok(false)) <==> Indicts(c, s, id, proof)
  {
    PreviousRoundIsPrevious(c, s);
  }

  // The answer to every check: a proof that is not good for the client at its place is refused, a client who did not
  // train is healthy, and a trainer is healthy when a quorum confirms it.
  lemma CheckReplies(c: Config, s: State, id: NodeIdentity, proof: CommitteeProof, round: Round, sel: Selection, quorum: nat)
    requires PreviousRound(s) == Some(round) && SelectionFor(c, round) == Ok(sel)
    requires WitnessQuorum(c, |round.witnesses|) == Done(quorum)
    ensures ClientHealthy(c, s, id, proof) ==
      if !GoodProof(c, s, id, proof, sel) then Done(Err(InvalidCommitteeProof))
      else if proof.committee != Trainer then Done(Ok(true))
      else Done(Ok(Score(c, id, round.witnesses) >= quorum))
  {
  }

  // The proof is the one drawn for the client's place.
  predicate GoodProof(c: Config, s: State, id: NodeIdentity, proof: CommitteeProof, sel: Selection)
  {
    && proof.index < |s.clients| && s.clients[proof.index].id == id
    && proof.index < sel.total && proof == sel.GetCommittee(c.sha256, proof.index)
  }

  // The first check that is not an indictment decides the answer to all of them.
  lemma {:induction false} FirstRefusalDecides(c: Config, s: State, checks: HealthChecks, k: nat)
    requires ConfigOk(c) && Inv(c, s) && Current(s).height >= 1 && k < |checks|
    requires !Indicts(c, s, checks[k].0, checks[k].1) && forall j :: 0 <= j < k ==> Indicts(c, s, checks[j].0, checks[j].1)
    ensures ClientHealthy(c, s, checks[k].0, checks[k].1).Done?
    ensures CheckAll(c, s, checks) ==
      match ClientHealthy(c, s, checks[k].0, checks[k].1).value
      case Err(e) => Done(Err(e))
      case Ok(_) => Done(Err(InvalidHealthCheck))
    decreases k
  {
    CheckMeaning(c, s, checks[0].0, checks[0].1);
    CheckMeaning(c, s, checks[k].0, checks[k].1);
    if k > 0 {
      FirstRefusalDecides(c, s, checks[1..], k - 1);
    }
  }

  lemma {:induction false} CheckAllMeaning(c: Config, s: State, checks: HealthChecks)
    requires ConfigOk(c) && Inv(c, s) && Current(s).height >= 1
    ensures CheckAll(c, s, checks).Done?
    ensures CheckAll(c, s, checks).value.Ok? <==>
      forall k :: 0 <= k < |checks| ==> Indicts(c, s, checks[k].0, checks[k].1)
  {
    if checks != [] {
      CheckMeaning(c, s, checks[0].0, checks[0].1);
      CheckAllMeaning(c, s, checks[1..]);
      assert forall k :: 0 < k < |checks| ==> checks[k] == checks[1..][k - 1];
    }
  }

  // ------------------------------------------------------------------ dropping

  ghost function Named(checks: HealthChecks): (r: set<nat>)
  {
    set k | 0 <= k < |checks| :: checks[k].1.index
  }

  // The clients that change when the named ones are dropped.
  ghost function Losing(clients: seq<Client>, named: set<nat>): (r: set<nat>)
  {
    set i | i in named && i < |clients| && clients[i].state == Healthy
  }

  lemma NamedPush(checks: HealthChecks, more: (NodeIdentity, CommitteeProof))
    ensures Named(checks + [more]) == Named(checks) + {more.1.index}
  {
    var all := checks + [more];
    assert all[|checks|] == more;
    forall i | i in Named(checks)
      ensures i in Named(all)
    {
      var k :| 0 <= k < |checks| && checks[k].1.index == i;
      assert all[k].1.index == i;
    }
  }

  // `after` is `clients` with exactly the healthy named ones dropped; there are `n` of them.
  ghost predicate DroppedNamed(clients: seq<Client>, named: set<nat>, after: seq<Client>, n: nat)
  {
    && |after| == |clients| && n == |Losing(clients, named)|
    && forall i :: 0 <= i < |clients| ==>
         after[i] == if i in Losing(clients, named) then clients[i].(state := Dropped) else clients[i]
  }

  lemma DropOneMore(clients: seq<Client>, named: set<nat>, after: seq<Client>, n: nat, index: nat)
    requires DroppedNamed(clients, named, after, n) && index < |clients|
    ensures after[index].state == Healthy ==>
      DroppedNamed(clients, named + {index}, after[index := after[index].(state := Dropped)], n + 1)
    ensures after[index].state != Healthy ==> DroppedNamed(clients, named + {index}, after, n)
  {
    var before, now := Losing(clients, named), Losing(clients, named + {index});
    if after[index].state == Healthy {
      assert now == before + {index} && index !in before;
    } else {
      assert now == before;
    }
  }

  lemma {:induction false} DropAllMeaning(clients: seq<Client>, checks: HealthChecks)
    requires forall k :: 0 <= k < |checks| ==> checks[k].1.index < |clients|
    ensures DropAll(clients, checks).Done?
    ensures DroppedNamed(clients, Named(checks), DropAll(clients, checks).value.0, DropAll(clients, checks).value.1)
  {
    if checks == [] {
      assert Losing(clients, Named(checks)) == {};
    } else {
      var last := |checks| - 1;
      var front := checks[..last];
      DropAllMeaning(clients, front);
      assert checks == front + [checks[last]];
      NamedPush(front, checks[last]);
      var (after, n) := DropAll(clients, front).value;
      DropOneMore(clients, Named(front), after, n, checks[last].1.index);
    }
  }

  // ------------------------------------------------------------------ the whole operation

  lemma HealthCheckKeepsInv(c: Config, s: State, checks: HealthChecks)
    requires ConfigOk(c) && Inv(c, s)
    ensures HealthCheckStep(c, s, checks).Done? && Inv(c, HealthCheckStep(c, s, checks).value.0)
  {
    if !IsHalted(s.runState) && Current(s).height >= 2 {
      CheckAllMeaning(c, s, checks);
      if CheckAll(c, s, checks).value.Ok? {
        DropAllMeaning(s.clients, checks);
        var after := DropAll(s.clients, checks).value.0;
        assert Ids(after) == Ids(s.clients);
        RelabelKeepsInv(c, s, after);
      }
    }
  }

  // All or nothing: either nothing changes, or every check was an indictment, and exactly the
  // named clients that were healthy are dropped and counted.
  lemma HealthCheckIsAllOrNothing(c: Config, s: State, checks: HealthChecks)
    requires ConfigOk(c) && Inv(c, s) && !IsHalted(s.runState)
    ensures HealthCheckStep(c, s, checks).Done?
    ensures var (t, r) := HealthCheckStep(c, s, checks).value;
      && (r.Ok? <==> Current(s).height >= 2 && forall k :: 0 <= k < |checks| ==> Indicts(c, s, checks[k].0, checks[k].1))
      && (r.Err? ==> t == s)
      && (r.Ok? ==>
           t == s.(clients := t.clients) && DroppedNamed(s.clients, Named(checks), t.clients, r.value))
  {
    if Current(s).height >= 2 {
      CheckAllMeaning(c, s, checks);
      if CheckAll(c, s, checks).value.Ok? {
        DropAllMeaning(s.clients, checks);
      }
    }
  }

  // A run that stands still takes no checks, and neither does one whose pipeline is not full.
  lemma EarlyChecks(c: Config, s: State, checks: HealthChecks)
    requires IsHalted(s.runState) || Current(s).height < 2
    ensures HealthCheckStep(c, s, checks) == Done((s, Err(if IsHalted(s.runState) then Halted else InvalidHealthCheck)))
  {
  }

  // A client that quorum-many witnesses of the previous round saw participate is never dropped.
  lemma ParticipantsAreNotDropped(
    c: Config, s: State, checks: HealthChecks, i: nat, who: set<nat>, items: seq<seq<Bytes>>, empties: seq<Bloom>)
    requires ConfigOk(c) && Inv(c, s) && i < |s.clients| && PreviousRound(s).Some?
    requires var ws := PreviousRound(s).value.witnesses;
      && |items| == |ws| == |empties|
      && (forall k :: k in who ==> k < |ws| && WasAdded(c, s.clients[i].id, ws[k], items[k], empties[k]))
      && WitnessQuorum(c, |ws|).Done? && |who| >= WitnessQuorum(c, |ws|).value
    ensures HealthCheckStep(c, s, checks).Done?
    ensures var t := HealthCheckStep(c, s, checks).value.0; i < |t.clients| && t.clients[i] == s.clients[i]
  {
    if !IsHalted(s.runState) {
      HealthCheckIsAllOrNothing(c, s, checks);
      AddedClientsScore(c, s.clients[i].id, PreviousRound(s).value.witnesses, who, items, empties);
      forall k | 0 <= k < |checks| && checks[k].1.index == i
        ensures !Indicts(c, s, checks[k].0, checks[k].1)
      {
      }
    }
  }
}
