/** Bytes, little-endian integers and the hash functions the protocol is keyed with.
    The hash functions themselves are parameters of every member that uses them, so what is
    proved holds for every function of that type. */
module Hashing {
  type Byte = b: int | 0 <= b < 256
  type Bytes = seq<Byte>
  type Digest = d: Bytes | |d| == 32 witness seq(32, i => 0)

  // SHA-256 over the concatenation of the hashed slices.
  type Sha256 = Bytes -> Digest
  // FNV-1a over a byte string, started from a key.
  type Fnv = (Bytes, nat) -> nat

  // One more than the largest 64-bit number.
  const U64 := 0x1_0000_0000_0000_0000

  function FromLe(bytes: Bytes): (n: nat)
  {
    if bytes == [] then 0 else bytes[0] + 256 * FromLe(bytes[1..])
  }

  // The `width` low bytes of `n`, least significant first.
  function ToLe(n: nat, width: nat): (bytes: Bytes)
    ensures |bytes| == width
  {
    if width == 0 then [] else [n % 256] + ToLe(n / 256, width - 1)
  }

  function Pow2(k: nat): (p: nat)
    ensures p >= 1
  {
    if k == 0 then 1 else 2 * Pow2(k - 1)
  }

  // ------------------------------------------------------------------ round trips

  function Pow256(k: nat): (p: nat)
    ensures p >= 1
  {
    if k == 0 then 1 else 256 * Pow256(k - 1)
  }

  lemma LowByte(n: nat, d: nat)
    requires d > 0
    ensures n % (256 * d) == n % 256 + 256 * (n / 256 % d)
  {
    var q, r := n / 256 / d, n / 256 % d;
    assert n / 256 == d * q + r && n == 256 * (n / 256) + n % 256;
    assert n == (256 * d) * q + (256 * r + n % 256);
    RemainderIs(n, 256 * d, q, 256 * r + n % 256);
  }

  lemma Multiple(d: nat, k: int)
    ensures k >= 1 ==> d * k >= d
    ensures k <= -1 ==> d * k <= 0 - d
  {
    assert d * k == d * (k - 1) + d;
    assert d * k == d * (k + 1) - d;
  }

  lemma RemainderIs(n: nat, d: nat, q: int, r: nat)
    requires r < d && n == d * q + r
    ensures n % d == r && n / d == q
  {
    var k := n / d - q;
    assert n == d * (n / d) + n % d;
    assert d * (n / d) == d * q + d * k;
    Multiple(d, k);
  }

  // Reading back the low bytes of a number gives the number modulo what they can hold.
  lemma {:induction false} FromToLe(n: nat, width: nat)
    ensures FromLe(ToLe(n, width)) == n % Pow256(width)
  {
    if width > 0 {
      FromToLe(n / 256, width - 1);
      LowByte(n, Pow256(width - 1));
      assert ToLe(n, width)[1..] == ToLe(n / 256, width - 1);
    }
  }

  lemma FromToLeExact(n: nat, width: nat)
    requires n < Pow256(width)
    ensures FromLe(ToLe(n, width)) == n
  {
    FromToLe(n, width);
    RemainderIs(n, Pow256(width), 0, n);
  }

  // And writing down what was read gives the bytes.
  lemma {:induction false} ToFromLe(bytes: Bytes)
    ensures ToLe(FromLe(bytes), |bytes|) == bytes && FromLe(bytes) < Pow256(|bytes|)
  {
    if bytes != [] {
      ToFromLe(bytes[1..]);
      RemainderIs(FromLe(bytes), 256, FromLe(bytes[1..]), bytes[0]);
    }
  }

  lemma EightBytes()
    ensures Pow256(8) == U64 && Pow256(4) == 0x1_0000_0000
  {
    assert Pow256(1) == 256;
    assert Pow256(2) == 0x1_0000;
    assert Pow256(3) == 0x100_0000;
    assert Pow256(4) == 0x1_0000_0000;
    assert Pow256(5) == 0x100_0000_0000;
    assert Pow256(6) == 0x1_0000_0000_0000;
    assert Pow256(7) == 0x100_0000_0000_0000;
  }
}
