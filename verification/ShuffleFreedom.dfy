/** How much a hash can decide: every pivot and every bit of every round of the shuffle, each on its own. So the
    shuffles that hashes produce are exactly the compositions of ninety rounds of free choices. */
module ShuffleFreedom {
  import opened Hashing
  import opened SwapOrNot

  // Positions are hashed in blocks of 256 whose number is cut to four bytes.
  const BIT_PERIOD := 0x100_0000_0000

  // What one round may choose: where it reflects, and which pairs it swaps, named by their larger member.
  datatype Choice = Choice(pivot: nat, swaps: nat -> bool)

  // The same round in plain arithmetic.
  function Moved(ch: Choice, n: nat, i: nat): (j: nat)
    requires i < n && ch.pivot < n
    ensures j < n
  {
    var flip := if i <= ch.pivot then ch.pivot - i else ch.pivot + n - i;
    var larger := if i < flip then flip else i;
    if ch.swaps(larger % BIT_PERIOD) then flip else i
  }

  ghost predicate InRange(choices: seq<Choice>, n: nat)
  {
    forall r :: 0 <= r < |choices| ==> choices[r].pivot < n
  }

  function MovedBy(choices: seq<Choice>, n: nat, i: nat): (j: nat)
    requires i < n && forall r :: 0 <= r < |choices| ==> choices[r].pivot < n
    ensures j < n
  {
    if choices == [] then i
    else
      var last := |choices| - 1;
      Moved(choices[last], n, MovedBy(choices[..last], n, i))
  }

  // ------------------------------------------------------------------ every hash makes choices

  // Round `round` of the hash is this choice.
  ghost predicate Makes(sha: Sha256, seed: Bytes, round: Byte, n: nat, ch: Choice)
    requires n > 0
  {
    && ch.pivot == Pivot(sha, seed, round, n)
    && forall p: nat :: p < BIT_PERIOD ==> ch.swaps(p) == SwapBit(sha, seed, round, p)
  }

  ghost predicate MakesAll(sha: Sha256, seed: Bytes, n: nat, choices: seq<Choice>)
    requires n > 0 && |choices| <= 256
  {
    forall r :: 0 <= r < |choices| ==> Makes(sha, seed, r, n, choices[r])
  }

  lemma BitInByte(q: nat, r: nat)
    requires r < 256
    ensures (256 * q + r) % 8 == r % 8
  {
    RemainderIs(256 * q + r, 8, 32 * q + r / 8, r % 8);
  }

  // Where position p is: its block, the byte in the block and the bit in the byte.
  lemma Address(p: nat)
    ensures p == 256 * (p / 256) + 8 * (p % 256 / 8) + p % 8 && p % 256 / 8 < 32
  {
    var q, r := p / 256, p % 256;
    assert p == 256 * q + r;
    BitInByte(q, r);
    assert r == 8 * (r / 8) + r % 8;
  }

  // Same byte and bit, and block numbers with the same four bytes.
  lemma SameBit(sha: Sha256, seed: Bytes, round: Byte, q: nat, q': nat, r: nat)
    requires r < 256 && ToLe(q, 4) == ToLe(q', 4)
    ensures SwapBit(sha, seed, round, 256 * q + r) == SwapBit(sha, seed, round, 256 * q' + r)
  {
    RemainderIs(256 * q + r, 256, q, r);
    RemainderIs(256 * q' + r, 256, q', r);
    BitInByte(q, r);
    BitInByte(q', r);
  }

  // The block number is cut to four bytes, so positions one period apart share their bit.
  lemma BitsRepeat(sha: Sha256, seed: Bytes, round: Byte, p: nat)
    ensures SwapBit(sha, seed, round, p) == SwapBit(sha, seed, round, p % BIT_PERIOD)
  {
    EightBytes();
    LowByte(p, 0x1_0000_0000);
    SameLow(p / 256, 4);
    SameBit(sha, seed, round, p / 256, p / 256 % 0x1_0000_0000, p % 256);
  }

  lemma {:induction false} SameLow(n: nat, width: nat)
    ensures ToLe(n, width) == ToLe(n % Pow256(width), width)
  {
    FromToLe(n, width);
    ToFromLe(ToLe(n, width));
  }

  lemma RoundMoves(sha: Sha256, seed: Bytes, round: Byte, n: nat, ch: Choice, i: nat)
    requires i < n && Makes(sha, seed, round, n, ch)
    ensures ShuffleRound(sha, seed, round, n, i) == Moved(ch, n, i)
  {
    FlipWithoutMod(ch.pivot, n, i);
    var flip := Flip(ch.pivot, n, i);
    BitsRepeat(sha, seed, round, if i < flip then flip else i);
  }

  lemma {:induction false} RoundsMove(sha: Sha256, seed: Bytes, n: nat, choices: seq<Choice>, i: nat)
    requires i < n && |choices| <= 256 && MakesAll(sha, seed, n, choices) && InRange(choices, n)
    ensures Forward(sha, seed, n, |choices|, i) == MovedBy(choices, n, i)
  {
    if choices != [] {
      var last := |choices| - 1;
      RoundsMove(sha, seed, n, choices[..last], i);
      assert Makes(sha, seed, last, n, choices[last]);
      RoundMoves(sha, seed, last, n, choices[last], MovedBy(choices[..last], n, i));
    }
  }

  function ChoiceOf(sha: Sha256, seed: Bytes, round: Byte, n: nat): (ch: Choice)
    requires n > 0
    ensures ch.pivot < n
  {
    Choice(Pivot(sha, seed, round, n), (p: nat) => SwapBit(sha, seed, round, p))
  }

  // Under every hash the shuffle is a composition of ninety choices.
  lemma EveryHashChooses(sha: Sha256, seed: Bytes, n: nat) returns (choices: seq<Choice>)
    requires n > 0
    ensures |choices| == 90 && InRange(choices, n)
    ensures forall i: nat :: i < n ==> Shuffled(sha, seed, n, i) == MovedBy(choices, n, i)
  {
    choices := seq(90, r requires 0 <= r < 90 => ChoiceOf(sha, seed, r, n));
    forall i: nat | i < n
      ensures Shuffled(sha, seed, n, i) == MovedBy(choices, n, i)
    {
      RoundsMove(sha, seed, n, choices, i);
    }
  }

  // ------------------------------------------------------------------ every choice has its hash

  // Bits from..7 of a byte.
  function FromBits(bits: nat -> bool, from: nat): (n: nat)
    requires from <= 8
    decreases 8 - from
  {
    if from == 8 then 0 else (if bits(from) then 1 else 0) + 2 * FromBits(bits, from + 1)
  }

  lemma {:induction false} FromBitsBound(bits: nat -> bool, from: nat)
    requires from <= 8
    ensures FromBits(bits, from) < Pow2(8 - from)
    decreases 8 - from
  {
    if from < 8 {
      FromBitsBound(bits, from + 1);
    }
  }

  lemma {:induction false} BitOf(bits: nat -> bool, from: nat, k: nat)
    requires from + k < 8
    ensures FromBits(bits, from) / Pow2(k) % 2 == (if bits(from + k) then 1 else 0)
    decreases k
  {
    var n, rest := FromBits(bits, from), FromBits(bits, from + 1);
    RemainderIs(n, 2, rest, if bits(from) then 1 else 0);
    if k > 0 {
      BitOf(bits, from + 1, k - 1);
      HalveFirst(n, Pow2(k - 1));
    }
  }

  lemma HalveFirst(n: nat, b: nat)
    requires b > 0
    ensures n / (2 * b) == n / 2 / b
  {
    var m := n / 2;
    var q, r := m / b, m % b;
    assert m == b * q + r;
    assert (2 * b) * q == 2 * (b * q);
    RemainderIs(n, 2 * b, q, 2 * r + n % 2);
  }

  function ByteOf(bits: nat -> bool): (b: Byte)
  {
    FromBitsBound(bits, 0);
    EightBits();
    FromBits(bits, 0)
  }

  lemma EightBits()
    ensures Pow2(8) == 256
  {
    assert Pow2(3) == 8 && Pow2(5) == 32;
  }

  // The bits of byte b of a block of 256 positions.
  function ByteBits(swaps: nat -> bool, block: nat, b: nat): (bits: nat -> bool)
  {
    (k: nat) => swaps(256 * block + 8 * b + k)
  }

  function BlockOf(swaps: nat -> bool, block: nat): (d: Digest)
  {
    seq(32, b requires 0 <= b < 32 => ByteOf(ByteBits(swaps, block, b)))
  }

  lemma BlockBit(swaps: nat -> bool, p: nat, block: nat, b: nat, k: nat)
    requires b < 32 && k < 8 && p == 256 * block + 8 * b + k
    ensures BlockOf(swaps, block)[b] / Pow2(k) % 2 == (if swaps(p) then 1 else 0)
  {
    BitOf(ByteBits(swaps, block, b), 0, k);
    assert ByteBits(swaps, block, b)(k) == swaps(p);
  }

  function PivotOf(pivot: nat): (d: Digest) { ToLe(pivot, 8) + seq(24, _ => 0) }

  /** The hash that answers for every key of one length as its choices say, and elsewhere as another hash. */
  function Oracle(length: nat, choicesOf: Bytes -> seq<Choice>, other: Sha256): (sha: Sha256)
  {
    (x: Bytes) =>
      if |x| == length + 1 && x[length] < |choicesOf(x[..length])| then
        PivotOf(choicesOf(x[..length])[x[length]].pivot)
      else if |x| == length + 5 && x[length] < |choicesOf(x[..length])| then
        BlockOf(choicesOf(x[..length])[x[length]].swaps, FromLe(x[length + 1..]))
      else other(x)
  }

  lemma OraclePivot(length: nat, choicesOf: Bytes -> seq<Choice>, other: Sha256, seed: Bytes, round: Byte, n: nat)
    requires |seed| == length && round < |choicesOf(seed)|
    requires choicesOf(seed)[round].pivot < n <= U64
    ensures Pivot(Oracle(length, choicesOf, other), seed, round, n) == choicesOf(seed)[round].pivot
  {
    var x, pivot := seed + [round], choicesOf(seed)[round].pivot;
    assert x[..length] == seed && x[length] == round;
    assert PivotOf(pivot)[..8] == ToLe(pivot, 8);
    EightBytes();
    FromToLeExact(pivot, 8);
    RemainderIs(pivot, n, 0, pivot);
  }

  lemma OracleBit(length: nat, choicesOf: Bytes -> seq<Choice>, other: Sha256, seed: Bytes, round: Byte, p: nat)
    requires |seed| == length && round < |choicesOf(seed)| && p < BIT_PERIOD
    ensures SwapBit(Oracle(length, choicesOf, other), seed, round, p) == choicesOf(seed)[round].swaps(p)
  {
    var x := seed + [round] + ToLe(p / 256, 4);
    assert x[..length] == seed && x[length] == round && x[length + 1..] == ToLe(p / 256, 4);
    EightBytes();
    FromToLeExact(p / 256, 4);
    Address(p);
    BlockBit(choicesOf(seed)[round].swaps, p, p / 256, p % 256 / 8, p % 8);
  }

  // For every key at once.
  lemma OracleChooses(length: nat, choicesOf: Bytes -> seq<Choice>, other: Sha256, seed: Bytes, n: nat)
    requires |seed| == length && 0 < n <= U64 && |choicesOf(seed)| <= 256
    requires InRange(choicesOf(seed), n)
    ensures MakesAll(Oracle(length, choicesOf, other), seed, n, choicesOf(seed))
  {
    forall r | 0 <= r < |choicesOf(seed)|
      ensures Makes(Oracle(length, choicesOf, other), seed, r, n, choicesOf(seed)[r])
    {
      OraclePivot(length, choicesOf, other, seed, r, n);
      forall p: nat | p < BIT_PERIOD
        ensures choicesOf(seed)[r].swaps(p) == SwapBit(Oracle(length, choicesOf, other), seed, r, p)
      {
        OracleBit(length, choicesOf, other, seed, r, p);
      }
    }
  }

  lemma OracleShuffles(length: nat, choicesOf: Bytes -> seq<Choice>, other: Sha256, seed: Bytes, n: nat, i: nat)
    requires |seed| == length && i < n <= U64 && |choicesOf(seed)| == 90
    requires InRange(choicesOf(seed), n)
    ensures Shuffled(Oracle(length, choicesOf, other), seed, n, i) == MovedBy(choicesOf(seed), n, i)
  {
    OracleChooses(length, choicesOf, other, seed, n);
    RoundsMove(Oracle(length, choicesOf, other), seed, n, choicesOf(seed), i);
  }

  // Any ninety choices are those of some hash, so the two kinds of shuffle are the same.
  lemma EveryChoiceHasAHash(seed: Bytes, n: nat, choices: seq<Choice>) returns (sha: Sha256)
    requires 0 < n <= U64 && |choices| == 90 && InRange(choices, n)
    ensures forall i: nat :: i < n ==> Shuffled(sha, seed, n, i) == MovedBy(choices, n, i)
  {
    sha := Oracle(|seed|, _ => choices, _ => seq(32, _ => 0));
    forall i: nat | i < n
      ensures Shuffled(sha, seed, n, i) == MovedBy(choices, n, i)
    {
      OracleShuffles(|seed|, _ => choices, _ => seq(32, _ => 0), seed, n, i);
    }
  }
}
