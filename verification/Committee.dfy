/** Committee and witness draws: a client's role is read off its position in a keyed shuffle. */
module CommitteeDraw {
  import opened Wrappers
  import opened Hashing
  import opened SwapOrNot

  const SOLANA_MAX_NUM_WITNESSES := 32
  const U64_MAX := 0xFFFF_FFFF_FFFF_FFFF
  const COMMITTEE_SALT: Bytes := [99, 111, 109, 109, 105, 116, 116, 101, 101]
  const WITNESS_SALT: Bytes := [119, 105, 116, 110, 101, 115, 115]

  datatype Committee = TieBreaker | Verifier | Trainer

  // A byte used as a flag; equality compares the byte, truth only tests it against zero.
  datatype SmallBoolean = SmallBoolean(raw: Byte) {
    predicate IsFalse() { raw == 0 }
  }

  function ToSmall(b: bool): (f: SmallBoolean)
    ensures f.IsFalse() <==> !b
  {
    SmallBoolean(if b then 1 else 0)
  }

  datatype CommitteeProof = CommitteeProof(committee: Committee, position: nat, index: nat)
  datatype WitnessProof = WitnessProof(position: nat, index: nat, elected: SmallBoolean)

  datatype InvalidSelection = InvalidCommitteeSelection

  datatype Selection = Selection(
    tieBreakers: nat, verifiers: nat, total: nat, witnessNodes: nat, seed: Digest)
  {
    predicate Valid() {
      tieBreakers + verifiers <= total && (witnessNodes != 0 ==> witnessNodes <= total)
    }

    function Trainers(): (n: nat)
      requires Valid()
    {
      total - tieBreakers - verifiers
    }

    // How many leading positions are elected witnesses.
    function WitnessSeats(): (n: nat)
    {
      if witnessNodes == 0 then SOLANA_MAX_NUM_WITNESSES else witnessNodes
    }

    function Position(sha: Sha256, index: nat, salt: Bytes): (p: nat)
      requires index < total
      ensures p < total
    {
      Shuffled(sha, sha(seed + salt), total, index)
    }

    function CommitteeAt(position: nat): (c: Committee)
    {
      if position < tieBreakers then TieBreaker
      else if position < tieBreakers + verifiers then Verifier
      else Trainer
    }

    predicate WitnessAt(position: nat)
    {
      if witnessNodes == 0 then position < SOLANA_MAX_NUM_WITNESSES else position < witnessNodes
    }

    function GetCommittee(sha: Sha256, index: nat): (p: CommitteeProof)
      requires index < total
    {
      var position := Position(sha, index, COMMITTEE_SALT);
      CommitteeProof(CommitteeAt(position), position, index)
    }

    function GetWitness(sha: Sha256, index: nat): (p: WitnessProof)
      requires index < total
    {
      var position := Position(sha, index, WITNESS_SALT);
      WitnessProof(position, index, ToSmall(WitnessAt(position)))
    }

    predicate Elected(sha: Sha256, index: nat)
      requires index < total
    {
      WitnessAt(Position(sha, index, WITNESS_SALT))
    }

    predicate VerifyCommittee(sha: Sha256, proof: CommitteeProof)
      requires proof.index < total
    {
      var position := Position(sha, proof.index, COMMITTEE_SALT);
      proof.position == position && proof.committee == CommitteeAt(position)
    }

    predicate VerifyWitness(sha: Sha256, proof: WitnessProof)
      requires proof.index < total
    {
      var position := Position(sha, proof.index, WITNESS_SALT);
      proof.position == position && proof.elected == ToSmall(WitnessAt(position))
    }
  }

  function NewSelection(
    sha: Sha256, tieBreakers: nat, witnessNodes: nat, verificationPercent: nat, total: nat, seed: nat)
    : (r: Result<Selection, InvalidSelection>)
    ensures r.Ok? <==>
      tieBreakers <= total < U64_MAX && witnessNodes <= total && verificationPercent <= 100
    ensures r.Ok? ==> r.value.Valid()
  {
    if total >= U64_MAX then Err(InvalidCommitteeSelection)
    else if total < tieBreakers then Err(InvalidCommitteeSelection)
    else if witnessNodes != 0 && total < witnessNodes then Err(InvalidCommitteeSelection)
    else if verificationPercent > 100 then Err(InvalidCommitteeSelection)
    else
      var freeNodes := total - tieBreakers;
      ShareBounded(freeNodes, verificationPercent);
      var verifiers := freeNodes * verificationPercent / 100;
      Ok(Selection(tieBreakers, verifiers, total, witnessNodes, sha(ToLe(seed, 8))))
  }

  lemma ShareBounded(nodes: nat, percent: nat)
    requires percent <= 100
    ensures nodes * percent / 100 <= nodes
  {
    assert nodes * percent <= nodes * 100;
  }

  // ---------------------------------------------------------------- exact sizes

  // The indices whose shuffled position falls in [lo, hi).
  ghost function Seats(sel: Selection, sha: Sha256, salt: Bytes, lo: nat, hi: nat): (s: set<nat>)
  {
    set i: nat | i < sel.total && lo <= sel.Position(sha, i, salt) < hi
  }

  // Every position is held by exactly one index.
  lemma SeatHolder(sel: Selection, sha: Sha256, salt: Bytes, p: nat) returns (holder: nat)
    requires p < sel.total
    ensures holder < sel.total && sel.Position(sha, holder, salt) == p
    ensures forall i: nat {:trigger sel.Position(sha, i, salt)} ::
      i < sel.total && sel.Position(sha, i, salt) == p ==> i == holder
  {
    var key := sha(sel.seed + salt);
    holder := Unshuffled(sha, key, sel.total, p);
    ShuffleIsBijection(sha, key, sel.total);
  }

  lemma {:induction false} SeatsCount(sel: Selection, sha: Sha256, salt: Bytes, lo: nat, hi: nat)
    requires lo <= hi <= sel.total
    ensures |Seats(sel, sha, salt, lo, hi)| == hi - lo
    decreases hi
  {
    if lo == hi {
      assert Seats(sel, sha, salt, lo, hi) == {};
    } else {
      SeatsCount(sel, sha, salt, lo, hi - 1);
      OneMoreSeat(sel, sha, salt, lo, hi);
    }
  }

  lemma OneMoreSeat(sel: Selection, sha: Sha256, salt: Bytes, lo: nat, hi: nat)
    requires lo < hi <= sel.total
    ensures |Seats(sel, sha, salt, lo, hi)| == |Seats(sel, sha, salt, lo, hi - 1)| + 1
  {
    var holder := SeatHolder(sel, sha, salt, hi - 1);
    forall i: nat
      ensures i in Seats(sel, sha, salt, lo, hi) <==> i in Seats(sel, sha, salt, lo, hi - 1) || i == holder
    {
      if i < sel.total && sel.Position(sha, i, salt) == hi - 1 {
        assert i == holder;
      }
    }
    assert Seats(sel, sha, salt, lo, hi) == Seats(sel, sha, salt, lo, hi - 1) + {holder};
  }

  ghost function Members(sel: Selection, sha: Sha256, c: Committee): (s: set<nat>)
  {
    set i: nat | i < sel.total && sel.GetCommittee(sha, i).committee == c
  }

  ghost function Witnesses(sel: Selection, sha: Sha256): (s: set<nat>)
  {
    set i: nat | i < sel.total && sel.Elected(sha, i)
  }

  // Indices 0..total split into committees of exactly the configured sizes.
  lemma CommitteeSizes(sel: Selection, sha: Sha256)
    requires sel.Valid()
    ensures |Members(sel, sha, TieBreaker)| == sel.tieBreakers
    ensures |Members(sel, sha, Verifier)| == sel.verifiers
    ensures |Members(sel, sha, Trainer)| == sel.Trainers()
    ensures forall i: nat :: i < sel.total <==>
      i in Members(sel, sha, TieBreaker) + Members(sel, sha, Verifier) + Members(sel, sha, Trainer)
    ensures Members(sel, sha, TieBreaker) !! Members(sel, sha, Verifier) !! Members(sel, sha, Trainer)
  {
    var a := sel.tieBreakers;
    var b := a + sel.verifiers;
    SeatsCount(sel, sha, COMMITTEE_SALT, 0, a);
    SeatsCount(sel, sha, COMMITTEE_SALT, a, b);
    SeatsCount(sel, sha, COMMITTEE_SALT, b, sel.total);
    assert Members(sel, sha, TieBreaker) == Seats(sel, sha, COMMITTEE_SALT, 0, a);
    assert Members(sel, sha, Verifier) == Seats(sel, sha, COMMITTEE_SALT, a, b);
    assert Members(sel, sha, Trainer) == Seats(sel, sha, COMMITTEE_SALT, b, sel.total);
  }

  lemma WitnessCount(sel: Selection, sha: Sha256)
    requires sel.Valid()
    ensures |Witnesses(sel, sha)| ==
      if sel.total < sel.WitnessSeats() then sel.total else sel.WitnessSeats()
  {
    var w := if sel.total < sel.WitnessSeats() then sel.total else sel.WitnessSeats();
    SeatsCount(sel, sha, WITNESS_SALT, 0, w);
    assert Witnesses(sel, sha) == Seats(sel, sha, WITNESS_SALT, 0, w);
  }

  // A proof is accepted exactly when it is the one drawn for its index, and no two indices
  // are drawn the same position.
  lemma ProofsAreUnique(sel: Selection, sha: Sha256, cp: CommitteeProof, wp: WitnessProof)
    requires cp.index < sel.total && wp.index < sel.total
    ensures sel.VerifyCommittee(sha, cp) <==> cp == sel.GetCommittee(sha, cp.index)
    ensures sel.VerifyWitness(sha, wp) <==> wp == sel.GetWitness(sha, wp.index)
    ensures sel.VerifyWitness(sha, wp) ==> (wp.elected.IsFalse() <==> !sel.Elected(sha, wp.index))
    ensures forall j: nat {:trigger sel.Position(sha, j, COMMITTEE_SALT)} :: j < sel.total && j != cp.index ==>
      sel.Position(sha, j, COMMITTEE_SALT) != sel.Position(sha, cp.index, COMMITTEE_SALT)
    ensures forall j: nat {:trigger sel.Position(sha, j, WITNESS_SALT)} :: j < sel.total && j != wp.index ==>
      sel.Position(sha, j, WITNESS_SALT) != sel.Position(sha, wp.index, WITNESS_SALT)
  {
    ShuffleIsBijection(sha, sha(sel.seed + COMMITTEE_SALT), sel.total);
    ShuffleIsBijection(sha, sha(sel.seed + WITNESS_SALT), sel.total);
  }
}
