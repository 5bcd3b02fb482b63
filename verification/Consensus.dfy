/** Choosing between competing commitments by witness vote. */
module Consensus {
  import opened Wrappers
  import opened Hashing
  import opened BloomFilters
  import opened CommitteeDraw
  import opened CoordinatorSpec

  datatype Commitment = Commitment(dataHash: Digest, signature: Bytes)

  // The first commitment from i on that the witness has seen broadcast.
  function VoteFrom(fnv: Fnv, commitments: seq<Commitment>, bloom: Bloom, i: nat): (v: Option<nat>)
    requires i <= |commitments|
    ensures v.Some? ==> i <= v.value < |commitments| && Contains(fnv, bloom, commitments[v.value].dataHash)
    ensures forall j :: i <= j < (if v.Some? then v.value else |commitments|) ==> !Contains(fnv, bloom, commitments[j].dataHash)
    decreases |commitments| - i
  {
    if i == |commitments| then None
    else if Contains(fnv, bloom, commitments[i].dataHash) then Some(i)
    else VoteFrom(fnv, commitments, bloom, i + 1)
  }

  // A witness votes for the first commitment it has seen, if any: at most once.
  function Vote(fnv: Fnv, commitments: seq<Commitment>, w: Witness): (v: Option<nat>)
    ensures v.Some? ==> v.value < |commitments| && Contains(fnv, w.broadcastBloom, commitments[v.value].dataHash)
    ensures v.Some? ==> forall i :: 0 <= i < v.value ==> !Contains(fnv, w.broadcastBloom, commitments[i].dataHash)
    ensures v.None? ==> forall i :: 0 <= i < |commitments| ==> !Contains(fnv, w.broadcastBloom, commitments[i].dataHash)
  {
    VoteFrom(fnv, commitments, w.broadcastBloom, 0)
  }

  // How many witnesses vote for commitment i.
  ghost function Score(fnv: Fnv, commitments: seq<Commitment>, ws: seq<Witness>, i: nat): (n: nat)
  {
    if ws == [] then 0
    else
      var last := |ws| - 1;
      Score(fnv, commitments, ws[..last], i) + if Vote(fnv, commitments, ws[last]) == Some(i) then 1 else 0
  }

  // The places of those for whom the predicate holds.
  ghost function Holders<W>(ws: seq<W>, who: W -> bool): (r: set<nat>)
  {
    set k: nat | k < |ws| && who(ws[k])
  }

  lemma HoldersPush<W>(ws: seq<W>, who: W -> bool)
    requires ws != []
    ensures var last := |ws| - 1;
      |Holders(ws, who)| == |Holders(ws[..last], who)| + if who(ws[last]) then 1 else 0
  {
    var last := |ws| - 1;
    if who(ws[last]) {
      assert Holders(ws, who) == Holders(ws[..last], who) + {last};
    } else {
      assert Holders(ws, who) == Holders(ws[..last], who);
    }
  }

  ghost function ForCommitment(fnv: Fnv, commitments: seq<Commitment>, i: nat): (who: Witness -> bool)
  {
    w => Vote(fnv, commitments, w) == Some(i)
  }

  // The score is the number of witnesses who vote for the commitment.
  lemma {:induction false} ScoreCountsVoters(fnv: Fnv, commitments: seq<Commitment>, ws: seq<Witness>, i: nat)
    ensures Score(fnv, commitments, ws, i) == |Holders(ws, ForCommitment(fnv, commitments, i))|
  {
    if ws == [] {
      assert Holders(ws, ForCommitment(fnv, commitments, i)) == {};
    } else {
      ScoreCountsVoters(fnv, commitments, ws[..|ws| - 1], i);
      HoldersPush(ws, ForCommitment(fnv, commitments, i));
    }
  }

  method SelectConsensusCommitment(fnv: Fnv, commitments: seq<Commitment>, ws: seq<Witness>, quorum: nat)
    returns (r: Option<nat>)
    ensures r.None? <==> forall i: nat :: i < |commitments| ==> Score(fnv, commitments, ws, i) < quorum
    ensures r.Some? ==>
      && r.value < |commitments| && Score(fnv, commitments, ws, r.value) >= quorum
      && (forall i: nat :: i < |commitments| ==> Score(fnv, commitments, ws, i) <= Score(fnv, commitments, ws, r.value))
      && (forall i: nat :: r.value < i < |commitments| ==> Score(fnv, commitments, ws, i) < Score(fnv, commitments, ws, r.value))
  {
    var scores := Tally(fnv, commitments, ws);
    r := LastMaximum(scores, quorum);
    forall i: nat | i < |commitments|
      ensures r.None? ==> Score(fnv, commitments, ws, i) < quorum
      ensures r.Some? ==> Score(fnv, commitments, ws, i) <= scores[r.value]
      ensures r.Some? && r.value < i ==> Score(fnv, commitments, ws, i) < scores[r.value]
    {
      assert scores[i] == Score(fnv, commitments, ws, i);
    }
    if r.Some? {
      assert Score(fnv, commitments, ws, r.value) >= quorum;
    }
  }

  // The last of the largest scores that reach the quorum.
  method LastMaximum(scores: seq<nat>, quorum: nat) returns (r: Option<nat>)
    ensures r.None? <==> forall j: nat :: j < |scores| ==> scores[j] < quorum
    ensures r.Some? ==>
      && r.value < |scores| && scores[r.value] >= quorum
      && (forall j: nat :: j < |scores| ==> scores[j] <= scores[r.value])
      && (forall j: nat :: r.value < j < |scores| ==> scores[j] < scores[r.value])
  {
    r := None;
    for i := 0 to |scores|
      invariant r.None? <==> forall j: nat :: j < i ==> scores[j] < quorum
      invariant r.Some? ==> r.value < i && scores[r.value] >= quorum
      invariant r.Some? ==> forall j: nat :: j < i ==> scores[j] <= scores[r.value]
      invariant r.Some? ==> forall j: nat :: r.value < j < i ==> scores[j] < scores[r.value]
    {
      // a later commitment with the same score wins
      if scores[i] >= quorum && (r.None? || scores[i] >= scores[r.value]) {
        r := Some(i);
      }
    }
  }

  method Tally(fnv: Fnv, commitments: seq<Commitment>, ws: seq<Witness>) returns (scores: seq<nat>)
    ensures |scores| == |commitments|
    ensures forall i :: 0 <= i < |scores| ==> scores[i] == Score(fnv, commitments, ws, i)
  {
    scores := seq(|commitments|, i => 0);
    for k := 0 to |ws|
      invariant |scores| == |commitments|
      invariant forall i :: 0 <= i < |scores| ==> scores[i] == Score(fnv, commitments, ws[..k], i)
    {
      ghost var before := scores;
      var i := 0;
      while i < |commitments|
        invariant 0 <= i <= |commitments| && scores == before
        invariant forall j :: 0 <= j < i ==> !Contains(fnv, ws[k].broadcastBloom, commitments[j].dataHash)
      {
        if Contains(fnv, ws[k].broadcastBloom, commitments[i].dataHash) {
          scores := scores[i := scores[i] + 1];
          break;
        }
        i := i + 1;
      }
      assert ws[..k + 1][..k] == ws[..k];
    }
    assert ws[..|ws|] == ws;
  }

  // ------------------------------------------------------------------ at most one winner

  function Nodes(c: Config, numWitnesses: nat): (n: nat)
  {
    if c.witnessNodes == 0 then numWitnesses else c.witnessNodes
  }

  // A quorum is more than half of the witnesses, unless there are exactly four.
  lemma QuorumIsMajority(c: Config, numWitnesses: nat)
    requires Nodes(c, numWitnesses) > 0
    ensures WitnessQuorum(c, numWitnesses).Done?
    ensures 2 * WitnessQuorum(c, numWitnesses).value > Nodes(c, numWitnesses) <==> Nodes(c, numWitnesses) != 4
  {
  }

  // No witness votes for two commitments.
  lemma {:induction false} ScoresShareVotes(fnv: Fnv, commitments: seq<Commitment>, ws: seq<Witness>, i: nat, j: nat)
    requires i != j
    ensures Score(fnv, commitments, ws, i) + Score(fnv, commitments, ws, j) <= |ws|
  {
    if ws != [] {
      ScoresShareVotes(fnv, commitments, ws[..|ws| - 1], i, j);
    }
  }

  // With no more witnesses than the quorum is taken of, two commitments cannot both reach it,
  // for every number of witnesses other than four.
  lemma AtMostOneQualifies(c: Config, commitments: seq<Commitment>, ws: seq<Witness>, i: nat, j: nat)
    requires 0 < Nodes(c, |ws|) && |ws| <= Nodes(c, |ws|) && Nodes(c, |ws|) != 4
    requires WitnessQuorum(c, |ws|).Done?
    requires Score(c.fnv, commitments, ws, i) >= WitnessQuorum(c, |ws|).value
    requires Score(c.fnv, commitments, ws, j) >= WitnessQuorum(c, |ws|).value
    ensures i == j
  {
    QuorumIsMajority(c, |ws|);
    if i != j {
      ScoresShareVotes(c.fnv, commitments, ws, i, j);
    }
  }

  // A filter that has seen one item, under one key.
  function Seen(fnv: Fnv, size: nat, key: nat, item: Bytes): (b: Bloom)
    requires size > 0
  {
    RawBloom([key], seq(size, i => i == Pos(fnv, size, item, key)))
  }

  lemma SeenOnly(fnv: Fnv, size: nat, key: nat, item: Bytes, other: Bytes)
    requires size > 0
    ensures Contains(fnv, Seen(fnv, size, key, item), other) <==> Pos(fnv, size, other, key) == Pos(fnv, size, item, key)
  {
    var b := Seen(fnv, size, key, item);
    assert b.keys[0] == key;
  }

  // A witness who has seen one of two digests that draw different bits votes for it.
  lemma VotesForSeen(fnv: Fnv, size: nat, key: nat, a: Digest, b: Digest, w: Witness, i: nat)
    requires size > 0 && Pos(fnv, size, a, key) != Pos(fnv, size, b, key) && i < 2
    requires w.broadcastBloom == Seen(fnv, size, key, if i == 0 then a else b)
    ensures Vote(fnv, [Commitment(a, []), Commitment(b, [])], w) == Some(i)
  {
    var commitments := [Commitment(a, []), Commitment(b, [])];
    SeenOnly(fnv, size, key, if i == 0 then a else b, a);
    SeenOnly(fnv, size, key, if i == 0 then a else b, b);
    assert commitments[0].dataHash == a && commitments[1].dataHash == b;
    assert Contains(fnv, w.broadcastBloom, commitments[i].dataHash);
    assert !Contains(fnv, w.broadcastBloom, commitments[1 - i].dataHash);
  }

  // The report of an elected witness, with its proof.
  ghost predicate Honest(c: Config, sel: Selection, w: Witness)
  {
    w.proof.index < sel.total && sel.VerifyWitness(c.sha256, w.proof) && !w.proof.elected.IsFalse()
  }

  lemma Reporter(c: Config, sel: Selection, position: nat, bloom: Bloom) returns (w: Witness)
    requires position < sel.total && position < sel.WitnessSeats()
    ensures Honest(c, sel, w) && w.broadcastBloom == bloom && w.proof.position == position
  {
    var i := SeatHolder(sel, c.sha256, WITNESS_SALT, position);
    w := Witness(sel.GetWitness(c.sha256, i), bloom, bloom, seq(32, i => 0));
  }

  lemma DifferentReporters(c: Config, sel: Selection, ws: seq<Witness>)
    requires forall k :: 0 <= k < |ws| ==> Honest(c, sel, ws[k])
    requires forall j, k :: 0 <= j < k < |ws| ==> ws[j].proof.position != ws[k].proof.position
    ensures forall j, k :: 0 <= j < k < |ws| ==> ws[j].proof.index != ws[k].proof.index
  {
    assert forall k :: 0 <= k < |ws| ==> Honest(c, sel, ws[k]);
  }

  // With four witnesses it takes only two votes, and whenever two digests draw different bits two commitments
  // can get two each, from four different elected witnesses with valid proofs.
  lemma FourWitnessesCanTie(c: Config, sel: Selection, size: nat, key: nat, a: Digest, b: Digest)
    returns (commitments: seq<Commitment>, ws: seq<Witness>)
    requires c.witnessNodes == 0 || c.witnessNodes == 4
    requires sel.Valid() && sel.total >= 4 && sel.witnessNodes == c.witnessNodes
    requires size > 0 && Pos(c.fnv, size, a, key) != Pos(c.fnv, size, b, key)
    ensures |ws| == 4 && |commitments| == 2 && WitnessQuorum(c, 4) == Done(2)
    ensures Score(c.fnv, commitments, ws, 0) == 2 && Score(c.fnv, commitments, ws, 1) == 2
    ensures forall k :: 0 <= k < 4 ==> Honest(c, sel, ws[k])
    ensures forall j, k :: 0 <= j < k < 4 ==> ws[j].proof.index != ws[k].proof.index
  {
    commitments := [Commitment(a, []), Commitment(b, [])];
    var sawA, sawB := Seen(c.fnv, size, key, a), Seen(c.fnv, size, key, b);
    ws := FourReporters(c, sel, sawA, sawB);
    TwoEach(c.fnv, size, key, a, b, sawA, sawB, ws);
  }

  lemma FourReporters(c: Config, sel: Selection, sawA: Bloom, sawB: Bloom) returns (ws: seq<Witness>)
    requires sel.total >= 4 && sel.WitnessSeats() >= 4
    ensures |ws| == 4 && forall k :: 0 <= k < 4 ==> Honest(c, sel, ws[k])
    ensures forall j, k :: 0 <= j < k < 4 ==> ws[j].proof.index != ws[k].proof.index
    ensures forall k :: 0 <= k < 4 ==> ws[k].broadcastBloom == if k < 2 then sawA else sawB
  {
    var w0 := Reporter(c, sel, 0, sawA);
    var w1 := Reporter(c, sel, 1, sawA);
    var w2 := Reporter(c, sel, 2, sawB);
    var w3 := Reporter(c, sel, 3, sawB);
    ws := [w0, w1, w2, w3];
    DifferentReporters(c, sel, ws);
  }

  lemma TwoEach(fnv: Fnv, size: nat, key: nat, a: Digest, b: Digest, sawA: Bloom, sawB: Bloom, ws: seq<Witness>)
    requires size > 0 && Pos(fnv, size, a, key) != Pos(fnv, size, b, key) && |ws| == 4
    requires sawA == Seen(fnv, size, key, a) && sawB == Seen(fnv, size, key, b)
    requires forall k :: 0 <= k < 4 ==> ws[k].broadcastBloom == if k < 2 then sawA else sawB
    ensures var commitments := [Commitment(a, []), Commitment(b, [])];
      Score(fnv, commitments, ws, 0) == 2 && Score(fnv, commitments, ws, 1) == 2
  {
    var commitments := [Commitment(a, []), Commitment(b, [])];
    VotesForSeen(fnv, size, key, a, b, ws[0], 0);
    VotesForSeen(fnv, size, key, a, b, ws[1], 0);
    VotesForSeen(fnv, size, key, a, b, ws[2], 1);
    VotesForSeen(fnv, size, key, a, b, ws[3], 1);
    assert ws == [ws[0], ws[1], ws[2], ws[3]];
    ScoreOfFour(fnv, commitments, ws[0], ws[1], ws[2], ws[3], 0);
    ScoreOfFour(fnv, commitments, ws[0], ws[1], ws[2], ws[3], 1);
  }

  function Voted(fnv: Fnv, commitments: seq<Commitment>, w: Witness, i: nat): (n: nat)
  {
    if Vote(fnv, commitments, w) == Some(i) then 1 else 0
  }

  lemma ScoreOfFour(fnv: Fnv, commitments: seq<Commitment>, w0: Witness, w1: Witness, w2: Witness, w3: Witness, i: nat)
    ensures Score(fnv, commitments, [w0, w1, w2, w3], i) ==
      Voted(fnv, commitments, w0, i) + Voted(fnv, commitments, w1, i) +
      Voted(fnv, commitments, w2, i) + Voted(fnv, commitments, w3, i)
  {
    ScorePush(fnv, commitments, [], w0, i);
    assert [] + [w0] == [w0];
    ScorePush(fnv, commitments, [w0], w1, i);
    assert [w0] + [w1] == [w0, w1];
    ScorePush(fnv, commitments, [w0, w1], w2, i);
    assert [w0, w1] + [w2] == [w0, w1, w2];
    ScorePush(fnv, commitments, [w0, w1, w2], w3, i);
    assert [w0, w1, w2] + [w3] == [w0, w1, w2, w3];
  }

  lemma ScorePush(fnv: Fnv, commitments: seq<Commitment>, ws: seq<Witness>, w: Witness, i: nat)
    ensures Score(fnv, commitments, ws + [w], i) ==
      Score(fnv, commitments, ws, i) + if Vote(fnv, commitments, w) == Some(i) then 1 else 0
  {
    assert (ws + [w])[..|ws|] == ws;
  }
}
