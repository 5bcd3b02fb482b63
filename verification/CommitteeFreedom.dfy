/** What a draw depends on: the seed of the round and the salt of the draw decide an index's position freely. */
module CommitteeFreedom {
  import opened Wrappers
  import opened Hashing
  import opened SwapOrNot
  import opened ShuffleFreedom
  import opened CommitteeDraw
  import opened CoordinatorSpec

  // ------------------------------------------------------------------ steering one index

  // Nothing moves until the last round, which takes i to t.
  function Steer(n: nat, i: nat, t: nat): (choices: seq<Choice>)
    requires i < n && t < n
    ensures |choices| == 90
  {
    seq(89, _ => Choice(0, (p: nat) => false)) + [Choice(if i + t < n then i + t else i + t - n, (p: nat) => true)]
  }

  lemma {:induction false} Still(choices: seq<Choice>, n: nat, i: nat)
    requires i < n && InRange(choices, n) && forall r, p: nat :: 0 <= r < |choices| ==> !choices[r].swaps(p)
    ensures MovedBy(choices, n, i) == i
  {
    if choices != [] {
      Still(choices[..|choices| - 1], n, i);
    }
  }

  lemma SteerArrives(n: nat, i: nat, t: nat)
    requires i < n && t < n
    ensures InRange(Steer(n, i, t), n) && MovedBy(Steer(n, i, t), n, i) == t
  {
    var choices := Steer(n, i, t);
    Still(choices[..89], n, i);
  }

  // ------------------------------------------------------------------ one hash for two seeds and two salts

  function Tag(a: Byte, b: Byte): (d: Digest) { [a, b] + seq(30, _ => 0) }

  // The digest of a seed says whether it is the first one; the key says this and which salt was added.
  function Tags(first: nat): (sha: Sha256)
  {
    (x: Bytes) =>
      if |x| == 8 then Tag(if FromLe(x) == first then 0 else 1, 0)
      else if |x| == 32 + |COMMITTEE_SALT| then Tag(x[0], 0)
      else if |x| == 32 + |WITNESS_SALT| then Tag(x[0], 1)
      else Tag(0, 0)
  }

  /** Where one index goes, by seed and by salt. */
  datatype Aims = Aims(committee: nat, witnessing: nat, laterCommittee: nat, laterWitnessing: nat) {
    predicate Below(n: nat) { committee < n && witnessing < n && laterCommittee < n && laterWitnessing < n }

    function At(key: Bytes): (t: nat)
      requires |key| >= 2
    {
      if key[0] == 0 then if key[1] == 0 then committee else witnessing
      else if key[1] == 0 then laterCommittee else laterWitnessing
    }
  }

  function Aimed(aims: Aims, n: nat, i: nat): (choicesOf: Bytes -> seq<Choice>)
    requires i < n && aims.Below(n)
  {
    (key: Bytes) => if |key| == 32 then Steer(n, i, aims.At(key)) else []
  }

  function AimedHash(aims: Aims, n: nat, i: nat, first: nat): (sha: Sha256)
    requires i < n && aims.Below(n)
  {
    Oracle(32, Aimed(aims, n, i), Tags(first))
  }

  lemma KeyArrives(aims: Aims, n: nat, i: nat, first: nat, key: Digest)
    requires i < n <= U64_MAX && aims.Below(n)
    ensures Shuffled(AimedHash(aims, n, i, first), key, n, i) == aims.At(key)
  {
    SteerArrives(n, i, aims.At(key));
    assert Aimed(aims, n, i)(key) == Steer(n, i, aims.At(key));
    OracleShuffles(32, Aimed(aims, n, i), Tags(first), key, n, i);
  }

  lemma SeedTag(aims: Aims, n: nat, i: nat, first: nat, seed: nat)
    requires i < n && aims.Below(n) && seed < U64
    ensures AimedHash(aims, n, i, first)(ToLe(seed, 8)) == Tag(if seed == first then 0 else 1, 0)
  {
    EightBytes();
    FromToLeExact(seed, 8);
  }

  lemma SaltTag(aims: Aims, n: nat, i: nat, first: nat, seed: Digest)
    requires i < n && aims.Below(n)
    ensures AimedHash(aims, n, i, first)(seed + COMMITTEE_SALT) == Tag(seed[0], 0)
    ensures AimedHash(aims, n, i, first)(seed + WITNESS_SALT) == Tag(seed[0], 1)
  {
  }

  lemma SelectionAims(aims: Aims, sel: Selection, i: nat, first: nat)
    requires i < sel.total < U64_MAX && aims.Below(sel.total)
    requires sel.seed == Tag(0, 0) || sel.seed == Tag(1, 0)
    ensures
      var sha := AimedHash(aims, sel.total, i, first);
      && sel.GetCommittee(sha, i).position == (if sel.seed == Tag(0, 0) then aims.committee else aims.laterCommittee)
      && sel.GetWitness(sha, i).position == (if sel.seed == Tag(0, 0) then aims.witnessing else aims.laterWitnessing)
  {
    assert Tag(0, 0)[0] == 0 && Tag(1, 0)[0] == 1;
    SaltTag(aims, sel.total, i, first, sel.seed);
    KeyArrives(aims, sel.total, i, first, Tag(sel.seed[0], 0));
    KeyArrives(aims, sel.total, i, first, Tag(sel.seed[0], 1));
  }

  // For any index, any two seeds of a round and any four positions there is a hash under which the index draws two
  // of them for the committee and two as a witness, one of each with either seed.
  lemma DrawsAreFree(
    tieBreakers: nat, witnessNodes: nat, percent: nat, total: nat, i: nat, seed: nat, seed': nat, aims: Aims)
    returns (sha: Sha256, sel: Selection, sel': Selection)
    requires tieBreakers <= total < U64_MAX && witnessNodes <= total && percent <= 100
    requires i < total && aims.Below(total)
    requires seed != seed' && seed < U64 && seed' < U64
    ensures NewSelection(sha, tieBreakers, witnessNodes, percent, total, seed) == Ok(sel) && sel.total == total
    ensures NewSelection(sha, tieBreakers, witnessNodes, percent, total, seed') == Ok(sel') && sel'.total == total
    ensures sel.GetCommittee(sha, i).position == aims.committee && sel.GetWitness(sha, i).position == aims.witnessing
    ensures sel'.GetCommittee(sha, i).position == aims.laterCommittee
    ensures sel'.GetWitness(sha, i).position == aims.laterWitnessing
  {
    sha := AimedHash(aims, total, i, seed);
    sel := NewSelection(sha, tieBreakers, witnessNodes, percent, total, seed).value;
    sel' := NewSelection(sha, tieBreakers, witnessNodes, percent, total, seed').value;
    SeedTag(aims, total, i, seed, seed);
    SeedTag(aims, total, i, seed, seed');
    assert Tag(0, 0)[0] == 0 && Tag(1, 0)[0] == 1;
    SelectionAims(aims, sel, i, seed);
    SelectionAims(aims, sel', i, seed);
  }

  // So it is for two rounds of a run that differ in their seeds alone.
  lemma RoundsDrawFreely(c: Config, round: Round, seed: nat, i: nat, aims: Aims)
    returns (c': Config, sel: Selection, sel': Selection)
    requires SelectionFor(c, round).Ok? && i < round.clientsLen && aims.Below(round.clientsLen)
    requires seed != round.randomSeed && seed < U64 && round.randomSeed < U64
    ensures c' == c.(sha256 := c'.sha256) && SelectionFor(c', round) == Ok(sel)
    ensures SelectionFor(c', round.(randomSeed := seed)) == Ok(sel')
    ensures i < sel.total && sel.GetCommittee(c'.sha256, i).position == aims.committee
    ensures sel.GetWitness(c'.sha256, i).position == aims.witnessing
    ensures i < sel'.total && sel'.GetCommittee(c'.sha256, i).position == aims.laterCommittee
    ensures sel'.GetWitness(c'.sha256, i).position == aims.laterWitnessing
  {
    var sha;
    sha, sel, sel' := DrawsAreFree(round.tieBreakerTasks, c.witnessNodes, c.verificationPercent, round.clientsLen, i,
                                   round.randomSeed, seed, aims);
    c' := c.(sha256 := sha);
  }
}
