/** What an audit depends on: the hash decides freely, for every verifier on its own, which assignment it audits. */
module AuditFreedom {
  import opened Wrappers
  import opened Hashing
  import opened SwapOrNot
  import opened CommitteeDraw
  import opened CoordinatorSpec
  import opened CoordinatorInvariants
  import opened DataSelection
  import opened AuditSelection

  // ------------------------------------------------------------------ a hash that is told what to pick

  // Another hash, except that the audit of an index under a seed picks as it is told.
  function Directed(sha: Sha256, pick: (Bytes, nat) -> nat): (r: Sha256)
  {
    (x: Bytes) =>
      if |x| == 45 && x[32..37] == AUDIT_SALT then ToLe(pick(x[..32], FromLe(x[37..])), 8) + seq(24, _ => 0)
      else sha(x)
  }

  // Any two indices, under any two seeds, pick independently of each other.
  lemma PicksAreFree(c: Config, pick: (Bytes, nat) -> nat, sel: Selection, index: nat, n: nat)
    requires index < U64 && pick(sel.seed, index) < n <= U64
    ensures Pick(c.(sha256 := Directed(c.sha256, pick)), sel, index, n) == pick(sel.seed, index)
  {
    var x, p := sel.seed + AUDIT_SALT + ToLe(index, 8), pick(sel.seed, index);
    assert x[..32] == sel.seed && x[32..37] == AUDIT_SALT && x[37..] == ToLe(index, 8);
    EightBytes();
    FromToLeExact(index, 8);
    FromToLeExact(p, 8);
    var digest := ToLe(p, 8) + seq(24, _ => 0);
    assert Directed(c.sha256, pick)(x) == digest && digest[..8] == ToLe(p, 8);
    RemainderIs(p, n, 0, p);
  }

  // ------------------------------------------------------------------ the seats stay as they are

  lemma {:induction false} SameRounds(sha: Sha256, sha': Sha256, key: Bytes, n: nat, rounds: nat, i: nat)
    requires i < n && rounds <= 256
    requires forall x: Bytes :: |x| == |key| + 1 || |x| == |key| + 5 ==> sha(x) == sha'(x)
    ensures Forward(sha, key, n, rounds, i) == Forward(sha', key, n, rounds, i)
  {
    if rounds > 0 {
      SameRounds(sha, sha', key, n, rounds - 1, i);
      SameRound(sha, sha', key, rounds - 1, n, Forward(sha, key, n, rounds - 1, i));
    }
  }

  lemma SameRound(sha: Sha256, sha': Sha256, key: Bytes, round: Byte, n: nat, i: nat)
    requires i < n
    requires forall x: Bytes :: |x| == |key| + 1 || |x| == |key| + 5 ==> sha(x) == sha'(x)
    ensures ShuffleRound(sha, key, round, n, i) == ShuffleRound(sha', key, round, n, i)
  {
    var flip := Flip(Pivot(sha, key, round, n), n, i);
    var position := if i < flip then flip else i;
    assert |key + [round]| == |key| + 1 && |key + [round] + ToLe(position / 256, 4)| == |key| + 5;
    assert Pivot(sha', key, round, n) == Pivot(sha, key, round, n);
    assert SwapBit(sha', key, round, position) == SwapBit(sha, key, round, position);
  }

  lemma SameSeat(sha: Sha256, pick: (Bytes, nat) -> nat, sel: Selection, i: nat)
    requires i < sel.total
    ensures sel.GetCommittee(Directed(sha, pick), i) == sel.GetCommittee(sha, i)
  {
    var x := sel.seed + COMMITTEE_SALT;
    assert |x| == 41;
    SameRounds(Directed(sha, pick), sha, sha(x), sel.total, SHUFFLE_ROUND_COUNT, i);
  }

  lemma SameTrainerList(c: Config, c': Config, sel: Selection, ids: seq<NodeIdentity>)
    requires |ids| <= sel.total
    requires forall i: nat :: i < sel.total ==> sel.GetCommittee(c'.sha256, i) == sel.GetCommittee(c.sha256, i)
    ensures Trainers(c', sel, ids) == Trainers(c, sel, ids)
  {
    forall i: nat | i < |ids|
      ensures RoleAt(c', sel, Trainer)(i) == RoleAt(c, sel, Trainer)(i)
    {
      RoleAtIs(c', sel, Trainer, i);
      RoleAtIs(c, sel, Trainer, i);
    }
    ChosenAlike(ids, RoleAt(c', sel, Trainer), RoleAt(c, sel, Trainer));
  }

  // ------------------------------------------------------------------ audits

  // The audit that client i is given when it picks p.
  function Given(clients: seq<Client>, targets: Assignments, i: nat, p: nat): (a: AuditAssignment)
    requires i < |clients| && p < |targets|
  {
    AuditAssignment(clients[i].id, i, targets[p].1, targets[p].0)
  }

  ghost predicate PickedBy(
    clients: seq<Client>, targets: Assignments, pick: (Bytes, nat) -> nat, seed: Bytes,
    before: seq<AuditAssignment>, after: seq<AuditAssignment>)
    requires forall i: nat :: i < |clients| ==> pick(seed, i) < |targets|
  {
    && |after| == |before|
    && forall k :: 0 <= k < |after| ==>
         && before[k].verifierIndex < |clients|
         && after[k] == Given(clients, targets, before[k].verifierIndex, pick(seed, before[k].verifierIndex))
  }

  lemma {:induction false} AuditsFollowPicks(
    c: Config, c': Config, sel: Selection, clients: seq<Client>, targets: Assignments, pick: (Bytes, nat) -> nat, m: nat)
    requires m <= |clients| <= sel.total && targets != []
    requires forall i: nat :: i < |clients| ==> pick(sel.seed, i) < |targets|
    requires forall i: nat :: i < sel.total ==> sel.GetCommittee(c'.sha256, i) == sel.GetCommittee(c.sha256, i)
    requires forall i: nat :: i < |clients| ==> Pick(c', sel, i, |targets|) == pick(sel.seed, i)
    ensures PickedBy(clients, targets, pick, sel.seed,
                     AuditsUpTo(c, sel, clients, targets, m), AuditsUpTo(c', sel, clients, targets, m))
  {
    if m > 0 {
      AuditsFollowPicks(c, c', sel, clients, targets, pick, m - 1);
    }
  }

  // Whatever each verifier is to audit, some hash with the same seats and assignments makes it so.
  lemma AuditsAreFree(c: Config, s: State, t: nat, sel: Selection, pick: (Bytes, nat) -> nat) returns (c': Config)
    requires SelectionWith(c, Current(s), t) == Ok(sel) && |s.clients| <= sel.total
    requires 0 < |RoundAssignment(c, s, sel)| <= U64
    requires forall i: nat :: i < |s.clients| ==> pick(sel.seed, i) < |RoundAssignment(c, s, sel)|
    ensures c' == c.(sha256 := c'.sha256) && RoundAssignment(c', s, sel) == RoundAssignment(c, s, sel)
    ensures RoundAudits(c', s, t).Done? && RoundAudits(c', s, t).value.Ok?
    ensures RoundAudits(c, s, t).Done? && RoundAudits(c, s, t).value.Ok?
    ensures PickedBy(s.clients, RoundAssignment(c, s, sel), pick, sel.seed,
                     RoundAudits(c, s, t).value.value, RoundAudits(c', s, t).value.value)
  {
    c' := c.(sha256 := Directed(c.sha256, pick));
    assert SelectionWith(c', Current(s), t) == Ok(sel);
    forall i: nat | i < sel.total
      ensures sel.GetCommittee(c'.sha256, i) == sel.GetCommittee(c.sha256, i)
    {
      SameSeat(c.sha256, pick, sel, i);
    }
    SameTrainerList(c, c', sel, Ids(s.clients));
    var targets := RoundAssignment(c, s, sel);
    forall i: nat | i < |s.clients|
      ensures Pick(c', sel, i, |targets|) == pick(sel.seed, i)
    {
      PicksAreFree(c, pick, sel, i, |targets|);
    }
    AuditsFollowPicks(c, c', sel, s.clients, targets, pick, |s.clients|);
  }
}
