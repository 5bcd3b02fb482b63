/** The swap-or-not shuffle: 90 keyed rounds, each of which either keeps an index or reflects it
    around the round's pivot. */
module SwapOrNot {
  import opened Hashing

  const SHUFFLE_ROUND_COUNT := 90

  function Pivot(sha: Sha256, seed: Bytes, round: Byte, n: nat): (p: nat)
    requires n > 0
    ensures p < n
  {
    FromLe(sha(seed + [round])[..8]) % n
  }

  function Flip(pivot: nat, n: nat, i: nat): (f: nat)
    requires i < n && pivot < n
    ensures f < n
  {
    (pivot + n - i) % n
  }

  // The decision bit drawn for the larger index of a pair that would be swapped.
  predicate SwapBit(sha: Sha256, seed: Bytes, round: Byte, position: nat)
  {
    var source := sha(seed + [round] + ToLe(position / 256, 4));
    source[position % 256 / 8] / Pow2(position % 8) % 2 == 1
  }

  function ShuffleRound(sha: Sha256, seed: Bytes, round: Byte, n: nat, i: nat): (j: nat)
    requires i < n
    ensures j < n
  {
    var flip := Flip(Pivot(sha, seed, round, n), n, i);
    var position := if i < flip then flip else i;
    if SwapBit(sha, seed, round, position) then flip else i
  }

  // Rounds 0 .. rounds in order.
  function Forward(sha: Sha256, seed: Bytes, n: nat, rounds: nat, i: nat): (j: nat)
    requires i < n && rounds <= 256
    ensures j < n
  {
    if rounds == 0 then i
    else ShuffleRound(sha, seed, rounds - 1, n, Forward(sha, seed, n, rounds - 1, i))
  }

  // The same rounds, last one first.
  function Backward(sha: Sha256, seed: Bytes, n: nat, rounds: nat, j: nat): (i: nat)
    requires j < n && rounds <= 256
    ensures i < n
  {
    if rounds == 0 then j
    else Backward(sha, seed, n, rounds - 1, ShuffleRound(sha, seed, rounds - 1, n, j))
  }

  function Shuffled(sha: Sha256, seed: Bytes, n: nat, i: nat): (j: nat)
    requires i < n
    ensures j < n
  {
    Forward(sha, seed, n, SHUFFLE_ROUND_COUNT, i)
  }

  function Unshuffled(sha: Sha256, seed: Bytes, n: nat, j: nat): (i: nat)
    requires j < n
    ensures i < n
  {
    Backward(sha, seed, n, SHUFFLE_ROUND_COUNT, j)
  }

  method ComputeShuffledIndex(sha: Sha256, seed: Bytes, n: nat, index: nat) returns (current: nat)
    requires index < n
    ensures current == Shuffled(sha, seed, n, index)
    ensures Unshuffled(sha, seed, n, current) == index
  {
    current := index;
    for round := 0 to SHUFFLE_ROUND_COUNT
      invariant current < n
      invariant current == Forward(sha, seed, n, round, index)
    {
      var hashResult := sha(seed + [round]);
      var pivot := FromLe(hashResult[..8]) % n;
      var flip := (pivot + n - current) % n;
      var position := if current < flip then flip else current;
      var source := sha(seed + [round] + ToLe(position / 256, 4));
      var byte := source[position % 256 / 8];
      var bit := byte / Pow2(position % 8) % 2;
      current := if bit == 1 then flip else current;
    }
    BackwardUndoesForward(sha, seed, n, SHUFFLE_ROUND_COUNT, index);
  }

  // One reduction suffices: the sum of two residues wraps at most once.
  lemma FlipWithoutMod(pivot: nat, n: nat, i: nat)
    requires i < n && pivot < n
    ensures Flip(pivot, n, i) == if i <= pivot then pivot - i else pivot + n - i
  {
    var x := pivot + n - i;
    var q := if i <= pivot then 1 else 0;
    assert x / n == q;
    assert x == n * q + x % n;
  }

  lemma FlipIsInvolution(pivot: nat, n: nat, i: nat)
    requires i < n && pivot < n
    ensures Flip(pivot, n, Flip(pivot, n, i)) == i
  {
    FlipWithoutMod(pivot, n, i);
    FlipWithoutMod(pivot, n, Flip(pivot, n, i));
  }

  // Every round is its own inverse: both members of a pair draw the bit of the larger one.
  lemma RoundIsInvolution(sha: Sha256, seed: Bytes, round: Byte, n: nat, i: nat)
    requires i < n
    ensures ShuffleRound(sha, seed, round, n, ShuffleRound(sha, seed, round, n, i)) == i
  {
    FlipIsInvolution(Pivot(sha, seed, round, n), n, i);
  }

  lemma {:induction false} BackwardUndoesForward(sha: Sha256, seed: Bytes, n: nat, rounds: nat, i: nat)
    requires i < n && rounds <= 256
    ensures Backward(sha, seed, n, rounds, Forward(sha, seed, n, rounds, i)) == i
  {
    if rounds > 0 {
      RoundIsInvolution(sha, seed, rounds - 1, n, Forward(sha, seed, n, rounds - 1, i));
      BackwardUndoesForward(sha, seed, n, rounds - 1, i);
    }
  }

  lemma {:induction false} ForwardUndoesBackward(sha: Sha256, seed: Bytes, n: nat, rounds: nat, j: nat)
    requires j < n && rounds <= 256
    ensures Forward(sha, seed, n, rounds, Backward(sha, seed, n, rounds, j)) == j
  {
    if rounds > 0 {
      var k := ShuffleRound(sha, seed, rounds - 1, n, j);
      ForwardUndoesBackward(sha, seed, n, rounds - 1, k);
      RoundIsInvolution(sha, seed, rounds - 1, n, j);
    }
  }

  // The shuffle is a bijection on [0, n): the reversed rounds are a two-sided inverse.
  lemma ShuffleIsBijection(sha: Sha256, seed: Bytes, n: nat)
    ensures forall i: nat :: i < n ==> Unshuffled(sha, seed, n, Shuffled(sha, seed, n, i)) == i
    ensures forall j: nat :: j < n ==> Shuffled(sha, seed, n, Unshuffled(sha, seed, n, j)) == j
  {
    forall i: nat | i < n
      ensures Unshuffled(sha, seed, n, Shuffled(sha, seed, n, i)) == i
    {
      BackwardUndoesForward(sha, seed, n, SHUFFLE_ROUND_COUNT, i);
    }
    forall j: nat | j < n
      ensures Shuffled(sha, seed, n, Unshuffled(sha, seed, n, j)) == j
    {
      ForwardUndoesBackward(sha, seed, n, SHUFFLE_ROUND_COUNT, j);
    }
  }
}
