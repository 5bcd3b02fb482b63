/** Bloom filters: K keyed hash positions per item in a fixed bit array. */
module BloomFilters {
  import opened Hashing

  datatype RawBloom = RawBloom(keys: seq<nat>, bits: seq<bool>)
  type Bloom = b: RawBloom | |b.bits| > 0 witness RawBloom([], [false])

  function Pos(fnv: Fnv, size: nat, item: Bytes, key: nat): (p: nat)
    requires size > 0
    ensures p < size
  {
    fnv(item, key) % size
  }

  // The item draws the bit at p under one of the keys.
  predicate Draws(fnv: Fnv, keys: seq<nat>, size: nat, item: Bytes, p: nat)
    requires size > 0
  {
    exists j :: 0 <= j < |keys| && Pos(fnv, size, item, keys[j]) == p
  }

  predicate Contains(fnv: Fnv, b: Bloom, item: Bytes)
  {
    forall j :: 0 <= j < |b.keys| ==> b.bits[Pos(fnv, |b.bits|, item, b.keys[j])]
  }

  ghost function Added(fnv: Fnv, b: Bloom, item: Bytes): (r: Bloom)
    ensures r.keys == b.keys && |r.bits| == |b.bits|
  {
    b.(bits := seq(|b.bits|, p requires 0 <= p < |b.bits| => b.bits[p] || Draws(fnv, b.keys, |b.bits|, item, p)))
  }

  ghost function AddedAll(fnv: Fnv, b: Bloom, items: seq<Bytes>): (r: Bloom)
    ensures r.keys == b.keys && |r.bits| == |b.bits|
  {
    if items == [] then b else Added(fnv, AddedAll(fnv, b, items[..|items| - 1]), items[|items| - 1])
  }

  ghost predicate IsEmpty(b: Bloom) {
    forall p :: 0 <= p < |b.bits| ==> !b.bits[p]
  }

  ghost predicate DrawnByOne(fnv: Fnv, keys: seq<nat>, size: nat, items: seq<Bytes>, p: nat)
    requires size > 0
  {
    exists i :: 0 <= i < |items| && Draws(fnv, keys, size, items[i], p)
  }

  class BloomFilter {
    const keys: seq<nat>
    var bits: array<bool>

    ghost predicate Valid() reads this { bits.Length > 0 }

    function View(): (b: Bloom)
      requires Valid()
      reads this, bits
    {
      RawBloom(keys, bits[..])
    }

    constructor (size: nat, keys: seq<nat>)
      requires size > 0
      ensures Valid() && fresh(bits) && bits.Length == size
      ensures View().keys == keys && IsEmpty(View())
    {
      this.keys := keys;
      bits := new bool[size](i => false);
    }

    method Clear()
      requires Valid()
      modifies this
      ensures Valid() && fresh(bits)
      ensures |View().bits| == old(|View().bits|) && IsEmpty(View())
    {
      bits := new bool[bits.Length](i => false);
    }

    method Add(fnv: Fnv, item: Bytes)
      requires Valid()
      modifies bits
      ensures View() == Added(fnv, old(View()), item)
    {
      ghost var before := bits[..];
      for j := 0 to |keys|
        invariant forall p :: 0 <= p < bits.Length ==>
          (bits[p] <==> before[p] || Draws(fnv, keys[..j], bits.Length, item, p))
      {
        var pos := Pos(fnv, bits.Length, item, keys[j]);
        ghost var mid := bits[..];
        if !bits[pos] {
          bits[pos] := true;
        }
        forall p | 0 <= p < bits.Length
          ensures bits[p] <==> before[p] || Draws(fnv, keys[..j + 1], bits.Length, item, p)
        {
          DrawsPush(fnv, keys[..j], keys[j], bits.Length, item, p);
          assert keys[..j + 1] == keys[..j] + [keys[j]];
          assert bits[p] <==> mid[p] || p == pos;
        }
      }
      assert keys[..|keys|] == keys;
      assert bits[..] == Added(fnv, old(View()), item).bits;
    }

    method Has(fnv: Fnv, item: Bytes) returns (found: bool)
      requires Valid()
      ensures found == Contains(fnv, View(), item)
    {
      for j := 0 to |keys|
        invariant forall k :: 0 <= k < j ==> bits[Pos(fnv, bits.Length, item, keys[k])]
      {
        var pos := Pos(fnv, bits.Length, item, keys[j]);
        if !bits[pos] {
          return false;
        }
      }
      return true;
    }
  }

  lemma DrawsPush(fnv: Fnv, keys: seq<nat>, key: nat, size: nat, item: Bytes, p: nat)
    requires size > 0
    ensures Draws(fnv, keys + [key], size, item, p) <==>
      Draws(fnv, keys, size, item, p) || Pos(fnv, size, item, key) == p
  {
    var more := keys + [key];
    assert more[|keys|] == key;
    forall j | 0 <= j < |keys|
      ensures more[j] == keys[j]
    {
    }
    if Draws(fnv, keys, size, item, p) {
      var j :| 0 <= j < |keys| && Pos(fnv, size, item, keys[j]) == p;
      assert Pos(fnv, size, item, more[j]) == p;
    }
  }

  lemma {:induction false} AddedAllBits(fnv: Fnv, b: Bloom, items: seq<Bytes>, p: nat)
    requires p < |b.bits|
    ensures AddedAll(fnv, b, items).bits[p] <==>
      b.bits[p] || DrawnByOne(fnv, b.keys, |b.bits|, items, p)
  {
    if items != [] {
      var last := |items| - 1;
      var front := items[..last];
      AddedAllBits(fnv, b, front, p);
      assert forall i :: 0 <= i < last ==> front[i] == items[i];
      if DrawnByOne(fnv, b.keys, |b.bits|, front, p) {
        var i :| 0 <= i < |front| && Draws(fnv, b.keys, |b.bits|, front[i], p);
        assert Draws(fnv, b.keys, |b.bits|, items[i], p);
      }
    }
  }

  // Exactly what membership means after any sequence of additions to an empty filter: every bit
  // the item draws was drawn by some added item. In particular there are no false negatives.
  lemma MembershipAfterAdds(fnv: Fnv, b: Bloom, items: seq<Bytes>, item: Bytes)
    requires IsEmpty(b)
    ensures Contains(fnv, AddedAll(fnv, b, items), item) <==>
      forall j :: 0 <= j < |b.keys| ==>
        DrawnByOne(fnv, b.keys, |b.bits|, items, Pos(fnv, |b.bits|, item, b.keys[j]))
    ensures item in items ==> Contains(fnv, AddedAll(fnv, b, items), item)
  {
    forall j | 0 <= j < |b.keys|
      ensures AddedAll(fnv, b, items).bits[Pos(fnv, |b.bits|, item, b.keys[j])] <==>
        DrawnByOne(fnv, b.keys, |b.bits|, items, Pos(fnv, |b.bits|, item, b.keys[j]))
    {
      AddedAllBits(fnv, b, items, Pos(fnv, |b.bits|, item, b.keys[j]));
    }
    if item in items {
      var i :| 0 <= i < |items| && items[i] == item;
      forall j | 0 <= j < |b.keys|
        ensures DrawnByOne(fnv, b.keys, |b.bits|, items, Pos(fnv, |b.bits|, item, b.keys[j]))
      {
        assert Draws(fnv, b.keys, |b.bits|, items[i], Pos(fnv, |b.bits|, item, b.keys[j]));
      }
    }
  }

  // Every item draws a bit for every key, each independent of all others.
  lemma PositionsAreFree(size: nat, position: (Bytes, nat) -> nat) returns (fnv: Fnv)
    requires size > 0 && forall item, key :: position(item, key) < size
    ensures forall item, key :: Pos(fnv, size, item, key) == position(item, key)
  {
    fnv := position;
    forall item, key
      ensures Pos(fnv, size, item, key) == position(item, key)
    {
      RemainderIs(position(item, key), size, 0, position(item, key));
    }
  }

  // Two items that share the bit of one key are told apart by another: with two keys there is a hash under which one is
  // found in a filter to which it was added and the other is not.
  lemma OneSharedBitIsNotEnough(a: Bytes, b: Bytes) returns (fnv: Fnv, empty: Bloom)
    requires a != b
    ensures empty.keys == [0, 1] && IsEmpty(empty)
    ensures Pos(fnv, |empty.bits|, a, 0) == Pos(fnv, |empty.bits|, b, 0)
    ensures Contains(fnv, Added(fnv, empty, a), a) && !Contains(fnv, Added(fnv, empty, a), b)
  {
    empty := RawBloom([0, 1], [false, false, false]);
    fnv := PositionsAreFree(3, (item, key) => if key == 0 then 0 else if item == a then 1 else 2);
    var more := Added(fnv, empty, a);
    assert Pos(fnv, 3, a, 0) == 0 && Pos(fnv, 3, b, 0) == 0;
    assert Pos(fnv, 3, a, 1) == 1 && Pos(fnv, 3, b, 1) == 2;
    assert more.keys[0] == 0 && more.keys[1] == 1;
    assert Draws(fnv, more.keys, 3, a, 0) && Draws(fnv, more.keys, 3, a, 1) && !Draws(fnv, more.keys, 3, a, 2);
    assert !more.bits[2];
  }
}
