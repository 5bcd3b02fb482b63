/** The audit lottery: every verifier seat draws one assigned batch to replay. */
module AuditSelection {
  import opened Wrappers
  import opened Hashing
  import opened CommitteeDraw
  import opened CoordinatorSpec
  import opened CoordinatorInvariants
  import opened DataSelection

  const AUDIT_SALT: Bytes := [97, 117, 100, 105, 116]

  datatype AuditAssignment = AuditAssignment(
    verifier: NodeIdentity, verifierIndex: nat, target: NodeIdentity, batchId: BatchId)

  // ------------------------------------------------------------------ the draw

  function Pick(c: Config, sel: Selection, index: nat, n: nat): (p: nat)
    requires n > 0
    ensures p < n
  {
    FromLe(c.sha256(sel.seed + AUDIT_SALT + ToLe(index, 8))[..8]) % n
  }

  function AuditOf(c: Config, sel: Selection, clients: seq<Client>, targets: Assignments, index: nat): (a: AuditAssignment)
    requires index < |clients| && targets != []
  {
    var (batchId, target) := targets[Pick(c, sel, index, |targets|)];
    AuditAssignment(clients[index].id, index, target, batchId)
  }

  // One audit per verifier seat among the first m clients, in client order.
  function AuditsUpTo(c: Config, sel: Selection, clients: seq<Client>, targets: Assignments, m: nat)
    : (r: seq<AuditAssignment>)
    requires m <= |clients| <= sel.total && targets != []
  {
    if m == 0 then []
    else
      AuditsUpTo(c, sel, clients, targets, m - 1)
      + if sel.GetCommittee(c.sha256, m - 1).committee == Verifier then [AuditOf(c, sel, clients, targets, m - 1)] else []
  }

  function Audits(c: Config, sel: Selection, clients: seq<Client>, targets: Assignments): (r: seq<AuditAssignment>)
    requires |clients| <= sel.total
  {
    if targets == [] then [] else AuditsUpTo(c, sel, clients, targets, |clients|)
  }

  lemma {:induction false} AuditsBySeat(c: Config, sel: Selection, clients: seq<Client>, targets: Assignments, m: nat)
    requires m <= |clients| <= sel.total && targets != []
    ensures
      var audits, seats := AuditsUpTo(c, sel, clients, targets, m), SeatsOf(c, sel, Verifier, m);
      |audits| == |seats| && forall k :: 0 <= k < |seats| ==> audits[k] == AuditOf(c, sel, clients, targets, seats[k])
  {
    if m > 0 {
      AuditsBySeat(c, sel, clients, targets, m - 1);
    }
  }

  // The selection of a round with another number of tie-breakers.
  function SelectionWith(c: Config, round: Round, tieBreakers: nat): (r: Result<Selection, InvalidSelection>)
    ensures r.Ok? ==>
      r.value.Valid() && r.value.total == round.clientsLen && r.value.tieBreakers == tieBreakers <= round.clientsLen
  {
    NewSelection(c.sha256, tieBreakers, c.witnessNodes, c.verificationPercent, round.clientsLen, round.randomSeed)
  }

  // Seats and assignments are drawn anew with the given number of tie-breakers.
  function RoundAudits(c: Config, s: State, tieBreakers: nat): (o: Outcome<Result<seq<AuditAssignment>, InvalidSelection>>)
  {
    match SelectionWith(c, Current(s), tieBreakers)
    case Err(e) => Done(Err(e))
    case Ok(sel) =>
      if |s.clients| > sel.total then Panic
      else Done(Ok(Audits(c, sel, s.clients, RoundAssignment(c, s, sel))))
  }

  method SelectAudits(c: Config, sel: Selection, clients: seq<Client>, assignments: Assignments)
    returns (o: Outcome<seq<AuditAssignment>>)
    ensures o ==
      if assignments == [] then Done([])
      else if |clients| <= sel.total then Done(Audits(c, sel, clients, assignments))
      else Panic
  {
    if assignments == [] {
      return Done([]);
    }
    var audits := [];
    for index := 0 to |clients|
      invariant index <= sel.total
      invariant |clients| <= sel.total ==> audits == AuditsUpTo(c, sel, clients, assignments, index)
    {
      if index >= sel.total {
        return Panic;
      }
      if sel.GetCommittee(c.sha256, index).committee != Verifier {
        continue;
      }
      var digest := c.sha256(sel.seed + AUDIT_SALT + ToLe(index, 8));
      var pick := FromLe(digest[..8]) % |assignments|;
      var (batchId, target) := assignments[pick];
      audits := audits + [AuditAssignment(clients[index].id, index, target, batchId)];
    }
    return Done(audits);
  }

  method SelectAuditsForCurrentRound(c: Config, s: State, tieBreakers: nat)
    returns (o: Outcome<Result<seq<AuditAssignment>, InvalidSelection>>)
    ensures o == RoundAudits(c, s, tieBreakers)
  {
    var sel := SelectionWith(c, Current(s), tieBreakers);
    if sel.Err? {
      return Done(Err(sel.error));
    }
    var assignments :- AssignData(c, s, sel.value);
    var audits := SelectAudits(c, sel.value, s.clients, assignments);
    return Done(Ok(audits.value));
  }

  // ------------------------------------------------------------------ what the draw guarantees

  // Two committees never share a client.
  lemma SeatIsUnique(c: Config, s: State, sel: Selection, i: nat, id: NodeIdentity)
    requires NoRepeats(Roster(s)) && |s.clients| <= sel.total && i < |s.clients| && s.clients[i].id == id
    requires SeatedTrainer(c, sel, Ids(s.clients), id)
    ensures sel.GetCommittee(c.sha256, i).committee == Trainer
  {
    var ids := Ids(s.clients);
    var j: nat :| j < |ids| && j < sel.total && ids[j] == id && sel.GetCommittee(c.sha256, j).committee == Trainer;
    OnePositionPerId(s, i, j);
  }

  // Exactly one audit for each verifier seat of the audit's own selection that a client holds; what is audited
  // is what that selection assigns; and nobody audits itself or anyone who is not a trainer of it.
  lemma AuditsFollowTheirSelection(c: Config, s: State, sel: Selection)
    requires sel.Valid() && |s.clients| <= sel.total && NoRepeats(Roster(s)) && RoundAssignment(c, s, sel) != []
    ensures var audits := Audits(c, sel, s.clients, RoundAssignment(c, s, sel));
      && (|s.clients| == sel.total ==> |audits| == sel.verifiers)
      && (forall i: nat :: i < |s.clients| && sel.GetCommittee(c.sha256, i).committee == Verifier ==>
            exists k :: 0 <= k < |audits| && audits[k].verifierIndex == i && audits[k].verifier == s.clients[i].id)
      && (forall j, k :: 0 <= j < k < |audits| ==> audits[j].verifierIndex < audits[k].verifierIndex)
      && (forall k :: 0 <= k < |audits| ==>
            && audits[k].verifierIndex < |s.clients|
            && audits[k].verifier == s.clients[audits[k].verifierIndex].id
            && sel.GetCommittee(c.sha256, audits[k].verifierIndex).committee == Verifier
            && (audits[k].batchId, audits[k].target) in RoundAssignment(c, s, sel)
            && SeatedTrainer(c, sel, Ids(s.clients), audits[k].target)
            && audits[k].verifier != audits[k].target)
  {
    SeatCounts(c, sel);
    AssignmentGoesToTrainers(c, s, sel);
    var a, seats := RoundAssignment(c, s, sel), SeatsOf(c, sel, Verifier, |s.clients|);
    var audits := Audits(c, sel, s.clients, a);
    AuditsBySeat(c, sel, s.clients, a, |s.clients|);
    forall i: nat | i < |s.clients| && sel.GetCommittee(c.sha256, i).committee == Verifier
      ensures exists k :: 0 <= k < |audits| && audits[k].verifierIndex == i && audits[k].verifier == s.clients[i].id
    {
      var k := SeatListed(c, sel, Verifier, |s.clients|, i);
      assert audits[k].verifierIndex == i;
    }
    forall k | 0 <= k < |audits|
      ensures (audits[k].batchId, audits[k].target) in a
      ensures SeatedTrainer(c, sel, Ids(s.clients), audits[k].target)
      ensures audits[k].verifier != audits[k].target
    {
      var p := Pick(c, sel, seats[k], |a|);
      assert a[p] == (audits[k].batchId, audits[k].target);
      if s.clients[seats[k]].id == a[p].1 {
        SeatIsUnique(c, s, sel, seats[k], a[p].1);
      }
    }
  }
}
