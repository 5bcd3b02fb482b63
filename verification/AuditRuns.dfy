/** Audits against the assignments a run has made. The rounds of a run are started without tie-breaker seats,
    while an audit draws its seats and assignments with the tie-breakers of the run. */
module AuditRuns {
  import opened Wrappers
  import opened Hashing
  import opened CommitteeDraw
  import opened CoordinatorSpec
  import opened CoordinatorInvariants
  import opened CoordinatorRuns
  import opened DataSelection
  import opened DataRuns
  import opened AuditSelection

  // ------------------------------------------------------------------ two selections of one round

  // Same positions and as many trainers: the trainers are the last positions.
  ghost predicate SameTrainerSeats(a: Selection, b: Selection)
  {
    a.Valid() && b.Valid() && a.total == b.total && a.seed == b.seed && a.Trainers() == b.Trainers()
  }

  lemma TrainersAreLast(sel: Selection, sha: Sha256, i: nat)
    requires sel.Valid() && i < sel.total
    ensures sel.GetCommittee(sha, i).committee == Trainer <==>
      sel.total - sel.Trainers() <= sel.Position(sha, i, COMMITTEE_SALT)
  {
  }

  lemma SameTrainers(c: Config, a: Selection, b: Selection, ids: seq<NodeIdentity>)
    requires SameTrainerSeats(a, b) && |ids| <= a.total
    ensures Trainers(c, a, ids) == Trainers(c, b, ids)
  {
    forall i: nat | i < |ids|
      ensures RoleAt(c, a, Trainer)(i) == RoleAt(c, b, Trainer)(i)
    {
      TrainersAreLast(a, c.sha256, i);
      TrainersAreLast(b, c.sha256, i);
    }
    ChosenAlike(ids, RoleAt(c, a, Trainer), RoleAt(c, b, Trainer));
  }

  lemma OneEach(total: nat, n: nat)
    requires 0 < total <= n
    ensures total / n == (if total == n then 1 else 0) && total % n == (if total == n then 0 else total)
  {
  }

  lemma {:induction false} SingleCuts(total: nat, n: nat, k: nat)
    requires k <= total <= n && n > 0
    ensures Cut(total, n, k) == k
  {
    if k > 0 {
      SingleCuts(total, n, k - 1);
      OneEach(total, n);
    }
  }

  // Up to as many items as shares, share k is item k alone.
  lemma SingleShare(start: nat, total: nat, n: nat, k: nat)
    requires k < total <= n
    ensures Share(start, total, n, k) == BatchId(start + k, start + k)
  {
    SingleCuts(total, n, k);
    SingleCuts(total, n, k + 1);
  }

  lemma FewerItemsThanTrainers(start: nat, total: nat, trainers: seq<NodeIdentity>)
    requires total <= |trainers|
    ensures AssignmentOf(start, total, trainers) == seq(total, k requires 0 <= k < total => (BatchId(start + k, start + k), trainers[k]))
  {
    forall k | 0 <= k < total
      ensures Share(start, total, |trainers|, k) == BatchId(start + k, start + k)
    {
      SingleShare(start, total, |trainers|, k);
    }
  }

  // With fewer trainers the assignment is the same exactly when there is no more than one item for each and the
  // first ones are the same.
  lemma AssignmentsAgreeIff(start: nat, total: nat, few: seq<NodeIdentity>, many: seq<NodeIdentity>)
    requires |few| < |many|
    ensures AssignmentOf(start, total, few) == AssignmentOf(start, total, many) <==>
      total <= |few| && few[..total] == many[..total]
  {
    if total <= |few| {
      FewerItemsThanTrainers(start, total, few);
      FewerItemsThanTrainers(start, total, many);
      var a, b := AssignmentOf(start, total, few), AssignmentOf(start, total, many);
      if a == b {
        forall k | 0 <= k < total
          ensures few[k] == many[k]
        {
          assert a[k].1 == few[k] && b[k].1 == many[k];
        }
      } else if few[..total] == many[..total] {
        forall k | 0 <= k < total
          ensures a[k] == b[k]
        {
          assert few[k] == few[..total][k] && many[k] == many[..total][k];
        }
      }
    } else {
      assert |AssignmentOf(start, total, few)| == |few|;
    }
  }

  // ------------------------------------------------------------------ over every run

  // Reserving t of n seats for tie-breakers takes no trainer away.
  predicate SparesTrainers(n: nat, t: nat, percent: nat)
    requires t <= n
  {
    t + (n - t) * percent / 100 == n * percent / 100
  }

  // Without tie-breakers there are at least as many trainers.
  lemma TieBreakersTakeTrainers(n: nat, t: nat, percent: nat)
    requires t <= n && percent <= 100
    ensures n * percent / 100 <= t + (n - t) * percent / 100
  {
    assert n * percent == (n - t) * percent + t * percent;
    assert t * percent <= t * 100;
    assert n * percent <= (n - t) * percent + t * 100;
  }

  lemma SelectionSizes(c: Config, round: Round, t: nat, sel: Selection)
    requires SelectionWith(c, round, t) == Ok(sel)
    ensures c.verificationPercent <= 100 && t <= round.clientsLen
    ensures sel.tieBreakers == t && sel.total == round.clientsLen && sel.seed == c.sha256(ToLe(round.randomSeed, 8))
    ensures sel.Valid() && sel.verifiers == (round.clientsLen - t) * c.verificationPercent / 100
  {
  }

  // Whenever a selection with tie-breakers is accepted, so is the one without.
  lemma TwoSelections(c: Config, round: Round, t: nat, sel: Selection) returns (own: Selection)
    requires round.tieBreakerTasks == 0 && SelectionWith(c, round, t) == Ok(sel)
    ensures SelectionFor(c, round) == Ok(own) && own.Valid() && sel.Valid() && own.tieBreakers == 0 && sel.tieBreakers == t
    ensures own.total == sel.total == round.clientsLen && own.seed == sel.seed && t <= round.clientsLen
    ensures sel.Trainers() <= own.Trainers()
    ensures sel.Trainers() == own.Trainers() <==> SparesTrainers(round.clientsLen, t, c.verificationPercent)
  {
    own := SelectionWith(c, round, 0).value;
    SelectionSizes(c, round, t, sel);
    SelectionSizes(c, round, 0, own);
    TieBreakersTakeTrainers(round.clientsLen, t, c.verificationPercent);
  }

  // The selection the round's trainers take their data from.
  lemma OwnSelection(c: Config, x: Traced, t: nat, sel: Selection) returns (own: Selection)
    requires ConfigOk(c) && Reachable(c, x) && InRound(x.s.runState) && SelectionWith(c, Current(x.s), t) == Ok(sel)
    ensures SelectionFor(c, Current(x.s)) == Ok(own) && own.Valid() && own.tieBreakers == 0 && sel.tieBreakers == t
    ensures |x.s.clients| == own.total == sel.total && own.seed == sel.seed && t <= sel.total
    ensures sel.Valid() && sel.Trainers() <= own.Trainers()
    ensures sel.Trainers() == own.Trainers() <==> SparesTrainers(|x.s.clients|, t, c.verificationPercent)
    ensures |x.h.log| == |x.h.trainers| == x.s.step > 0
    ensures RoundAssignment(c, x.s, own) == Assigned(x.h, x.s.step - 1)
    ensures NoRepeats(Roster(x.s))
  {
    RoundSeats(c, x);
    own := TwoSelections(c, Current(x.s), t, sel);
    AssignmentIsOnRecord(c, x, own);
  }

  // The assignment an audit draws from is the one the round made exactly when the reserved seats take no trainer
  // away, or there is no more than one item for each trainer left and the first of them are the same.
  lemma AuditedIsOnRecordIff(c: Config, x: Traced, t: nat, sel: Selection) returns (own: Selection)
    requires ConfigOk(c) && Reachable(c, x) && InRound(x.s.runState) && SelectionWith(c, Current(x.s), t) == Ok(sel)
    ensures SelectionFor(c, Current(x.s)) == Ok(own) && t <= |x.s.clients| == own.total == sel.total
    ensures |x.h.log| == |x.h.trainers| == x.s.step > 0
    ensures
      var batch := BatchAt(c, Current(x.s).dataIndex);
      var few, many := ShuffledTrainers(c, x.s, sel), ShuffledTrainers(c, x.s, own);
      |few| == sel.Trainers() <= |many| == own.Trainers() &&
      (RoundAssignment(c, x.s, sel) == Assigned(x.h, x.s.step - 1) <==>
         || SparesTrainers(|x.s.clients|, t, c.verificationPercent)
         || (batch <= |few| && few[..batch] == many[..batch]))
  {
    own := OwnSelection(c, x, t, sel);
    TrainerCount(c, x.s, sel);
    TrainerCount(c, x.s, own);
    if sel.Trainers() == own.Trainers() {
      SameTrainers(c, sel, own, Ids(x.s.clients));
    } else {
      AssignmentsAgreeIff(Current(x.s).dataIndex, BatchAt(c, Current(x.s).dataIndex),
                          ShuffledTrainers(c, x.s, sel), ShuffledTrainers(c, x.s, own));
    }
  }

  // A verifier of the audit is a verifier of the round when no trainer is taken away.
  lemma AuditorsAreVerifiers(sel: Selection, own: Selection, sha: Sha256, i: nat)
    requires SameTrainerSeats(sel, own) && own.tieBreakers == 0 && i < sel.total
    requires sel.GetCommittee(sha, i).committee == Verifier
    ensures own.GetCommittee(sha, i).committee == Verifier
  {
  }

  // Over every run, whoever may audit is a verifier of the round exactly when no trainer is taken away or there is
  // nobody to audit.
  lemma AuditorsAreVerifiersIff(c: Config, x: Traced, t: nat, sel: Selection) returns (own: Selection)
    requires ConfigOk(c) && Reachable(c, x) && InRound(x.s.runState) && SelectionWith(c, Current(x.s), t) == Ok(sel)
    ensures SelectionFor(c, Current(x.s)) == Ok(own) && t <= |x.s.clients| == own.total == sel.total
    ensures
      (forall i: nat :: i < sel.total && sel.GetCommittee(c.sha256, i).committee == Verifier ==>
         own.GetCommittee(c.sha256, i).committee == Verifier) <==>
      SparesTrainers(|x.s.clients|, t, c.verificationPercent) || sel.verifiers == 0
  {
    own := OwnSelection(c, x, t, sel);
    if sel.Trainers() == own.Trainers() {
      forall i: nat | i < sel.total && sel.GetCommittee(c.sha256, i).committee == Verifier
        ensures own.GetCommittee(c.sha256, i).committee == Verifier
      {
        AuditorsAreVerifiers(sel, own, c.sha256, i);
      }
    } else if sel.verifiers > 0 {
      var i := SeatHolder(sel, c.sha256, COMMITTEE_SALT, sel.tieBreakers + sel.verifiers - 1);
      TrainersAreLast(own, c.sha256, i);
      assert sel.GetCommittee(c.sha256, i).committee == Verifier && own.GetCommittee(c.sha256, i).committee == Trainer;
    }
  }

  lemma SeatedInBoth(c: Config, sel: Selection, own: Selection, ids: seq<NodeIdentity>, id: NodeIdentity)
    requires SameTrainerSeats(sel, own) && SeatedTrainer(c, sel, ids, id)
    ensures SeatedTrainer(c, own, ids, id)
  {
    var i: nat :| i < |ids| && i < sel.total && ids[i] == id && sel.GetCommittee(c.sha256, i).committee == Trainer;
    TrainersAreLast(sel, c.sha256, i);
    TrainersAreLast(own, c.sha256, i);
  }

  // One audit for each of n seats, if anything was assigned; each is of an assignment made, to a trainer and by a
  // verifier of the selection, and nobody audits itself.
  ghost predicate Sound(
    c: Config, own: Selection, clients: seq<Client>, made: Assignments, n: int, audits: seq<AuditAssignment>)
    requires |clients| == own.total
  {
    && |audits| == (if made == [] then 0 else n)
    && (forall j, k :: 0 <= j < k < |audits| ==> audits[j].verifierIndex < audits[k].verifierIndex)
    && (forall k :: 0 <= k < |audits| ==>
          && audits[k].verifierIndex < own.total
          && audits[k].verifier == clients[audits[k].verifierIndex].id
          && own.GetCommittee(c.sha256, audits[k].verifierIndex).committee == Verifier
          && (audits[k].batchId, audits[k].target) in made
          && SeatedTrainer(c, own, Ids(clients), audits[k].target)
          && audits[k].verifier != audits[k].target)
  }

  lemma SameSeatsAreSound(c: Config, s: State, sel: Selection, own: Selection)
    requires SameTrainerSeats(sel, own) && own.tieBreakers == 0 && |s.clients| == sel.total && NoRepeats(Roster(s))
    ensures
      var made := RoundAssignment(c, s, own);
      RoundAssignment(c, s, sel) == made && Sound(c, own, s.clients, made, sel.verifiers, Audits(c, sel, s.clients, made))
  {
    SameTrainers(c, sel, own, Ids(s.clients));
    var made := RoundAssignment(c, s, sel);
    var audits := Audits(c, sel, s.clients, made);
    if made != [] {
      AuditsFollowTheirSelection(c, s, sel);
      forall k | 0 <= k < |audits|
        ensures own.GetCommittee(c.sha256, audits[k].verifierIndex).committee == Verifier
        ensures SeatedTrainer(c, own, Ids(s.clients), audits[k].target)
      {
        AuditorsAreVerifiers(sel, own, c.sha256, audits[k].verifierIndex);
        SeatedInBoth(c, sel, own, Ids(s.clients), audits[k].target);
      }
    }
  }

  // Over every run, when the reserved seats take no trainer away: there is one audit for each verifier seat left,
  // sound against what the round has assigned.
  lemma AuditsAreSound(c: Config, x: Traced, t: nat, audits: seq<AuditAssignment>) returns (own: Selection)
    requires ConfigOk(c) && Reachable(c, x) && InRound(x.s.runState) && RoundAudits(c, x.s, t) == Done(Ok(audits))
    requires t <= |x.s.clients| ==> SparesTrainers(|x.s.clients|, t, c.verificationPercent)
    ensures SelectionFor(c, Current(x.s)) == Ok(own) && t <= own.verifiers && |x.s.clients| == own.total
    ensures |x.h.log| == |x.h.trainers| == x.s.step > 0
    ensures Sound(c, own, x.s.clients, Assigned(x.h, x.s.step - 1), own.verifiers - t, audits)
  {
    var sel := SelectionWith(c, Current(x.s), t).value;
    own := OwnSelection(c, x, t, sel);
    SameSeatsAreSound(c, x.s, sel, own);
  }

  // Over every run, asking for audits aborts exactly when an accepted selection meets clients before the first
  // round of the epoch has started.
  lemma AuditsAbortIff(c: Config, x: Traced, t: nat)
    requires ConfigOk(c) && Reachable(c, x)
    ensures RoundAudits(c, x.s, t).Panic? <==>
      !Started(x.s) && x.s.clients != [] && t == 0 && c.witnessNodes == 0 && c.verificationPercent <= 100
  {
    ReachableInv(c, x);
    if Started(x.s) {
      assert InWindow(x.s, 0) && StartKnown(x, 0);
    }
  }
}
