/** The fixed-capacity vector: an array and a length. Unused slots hold the default value. */
module FixedVecs {
  import opened Wrappers

  datatype PushError = Full
  datatype InsertError = NoRoom | OutOfBounds

  function Filtered<T>(s: seq<T>, keep: T -> bool): (r: seq<T>)
    ensures |r| <= |s|
  {
    if s == [] then []
    else if keep(s[|s| - 1]) then Filtered(s[..|s| - 1], keep) + [s[|s| - 1]]
    else Filtered(s[..|s| - 1], keep)
  }

  lemma FilteredNext<T>(s: seq<T>, i: nat, keep: T -> bool)
    requires i < |s|
    ensures Filtered(s[..i + 1], keep) == if keep(s[i]) then Filtered(s[..i], keep) + [s[i]] else Filtered(s[..i], keep)
  {
    assert s[..i + 1][..i] == s[..i];
  }

  // The elements that are kept, as often as before, and no others.
  lemma {:induction false} FilteredCounts<T>(s: seq<T>, keep: T -> bool, x: T)
    ensures multiset(Filtered(s, keep))[x] == if keep(x) then multiset(s)[x] else 0
  {
    if s != [] {
      FilteredCounts(s[..|s| - 1], keep, x);
      assert s == s[..|s| - 1] + [s[|s| - 1]];
    }
  }

  class FixedVec<T(==)> {
    const default: T
    const data: array<T>
    var len: nat

    ghost predicate Valid()
      reads this, data
    {
      len <= data.Length && forall i :: len <= i < data.Length ==> data[i] == default
    }

    ghost function Contents(): (s: seq<T>)
      requires Valid()
      reads this, data
    {
      data[..len]
    }

    constructor (capacity: nat, default: T)
      ensures Valid() && fresh(data) && data.Length == capacity && this.default == default && Contents() == []
    {
      this.default := default;
      data := new T[capacity](_ => default);
      len := 0;
    }

    method Push(value: T) returns (r: Result<(), PushError>)
      requires Valid()
      modifies this, data
      ensures Valid()
      ensures r == if |old(Contents())| < data.Length then Ok(()) else Err(Full)
      ensures Contents() == if r.Ok? then old(Contents()) + [value] else old(Contents())
    {
      if len < data.Length {
        data[len] := value;
        len := len + 1;
        return Ok(());
      }
      return Err(Full);
    }

    method Pop() returns (r: Option<T>)
      requires Valid()
      modifies this, data
      ensures Valid()
      ensures r.None? <==> old(Contents()) == []
      ensures old(Contents()) == if r.Some? then Contents() + [r.value] else Contents()
    {
      if len == 0 {
        return None;
      }
      len := len - 1;
      r := Some(data[len]);
      data[len] := default;
    }

    method Clear()
      requires Valid()
      modifies this, data
      ensures Valid() && Contents() == []
    {
      for i := 0 to len
        modifies data
        invariant forall k :: 0 <= k < i || len <= k < data.Length ==> data[k] == default
      {
        data[i] := default;
      }
      len := 0;
    }

    method Remove(index: nat) returns (r: Option<T>)
      requires Valid()
      modifies this, data
      ensures Valid()
      ensures r == if index < |old(Contents())| then Some(old(Contents())[index]) else None
      ensures Contents() == if r.Some? then old(Contents())[..index] + old(Contents())[index + 1..] else old(Contents())
    {
      if index >= len {
        return None;
      }
      r := Some(data[index]);
      var last := len - 1;
      for i := index to last
        modifies data
        invariant forall k :: 0 <= k < index ==> data[k] == old(data[k])
        invariant forall k :: index <= k < i ==> data[k] == old(data[k + 1])
        invariant forall k :: i <= k < data.Length ==> data[k] == old(data[k])
      {
        data[i] := data[i + 1];
      }
      data[last] := default;
      len := len - 1;
      assert data[..index] == old(data[..index]) && data[index..len] == old(data[index + 1..len]);
    }

    method Insert(index: nat, element: T) returns (r: Result<(), InsertError>)
      requires Valid()
      modifies this, data
      ensures Valid()
      ensures var s := old(Contents());
        r == if |s| >= data.Length then Err(NoRoom) else if index > |s| then Err(OutOfBounds) else Ok(())
      ensures Contents() == if r.Ok? then old(Contents())[..index] + [element] + old(Contents())[index..] else old(Contents())
    {
      if len >= data.Length {
        return Err(NoRoom);
      }
      if index > len {
        return Err(OutOfBounds);
      }
      ghost var was := Contents();
      for i := len downto index
        modifies data
        invariant forall k :: 0 <= k < i ==> data[k] == was[k]
        invariant forall k :: i < k <= len ==> data[k] == was[k - 1]
        invariant forall k :: len < k < data.Length ==> data[k] == default
        invariant i < len ==> data[i] == was[i]
      {
        data[i + 1] := data[i];
      }
      data[index] := element;
      len := len + 1;
      ghost var now := was[..index] + [element] + was[index..];
      assert |now| == len && forall k :: 0 <= k < len ==> data[k] == now[k];
      return Ok(());
    }

    /** One pass with a reading and a writing position; the elements that pass end up in front. */
    method Compact(keep: T -> bool) returns (write: nat)
      requires Valid()
      modifies data
      ensures Valid() && write <= len && data[..write] == Filtered(old(Contents()), keep)
    {
      ghost var was, kept := Contents(), [];
      var read := 0;
      write := 0;
      while read < len
        invariant write <= read <= len == |was|
        invariant kept == Filtered(was[..read], keep) && |kept| == write
        invariant forall k :: 0 <= k < write ==> data[k] == kept[k]
        invariant forall k :: read <= k < len ==> data[k] == was[k]
        invariant forall k :: len <= k < data.Length ==> data[k] == default
      {
        FilteredNext(was, read, keep);
        if keep(data[read]) {
          if read != write {
            data[write] := data[read];
          }
          kept := kept + [was[read]];
          write := write + 1;
        }
        read := read + 1;
      }
      assert was[..read] == was && data[..write] == kept;
    }

    /** Keep the elements that pass, in order. */
    method Retain(keep: T -> bool)
      requires Valid()
      modifies this, data
      ensures Valid() && Contents() == Filtered(old(Contents()), keep)
    {
      var write := Compact(keep);
      ghost var front := data[..write];
      for i := write to len
        modifies data
        invariant data[..write] == front
        invariant forall k :: write <= k < i || len <= k < data.Length ==> data[k] == default
      {
        data[i] := default;
      }
      len := write;
    }
  }

  // Equal contents are equal memory: comparing the arrays compares the vectors.
  lemma SameContentsSameMemory<T>(a: FixedVec<T>, b: FixedVec<T>)
    requires a.Valid() && b.Valid() && a.data.Length == b.data.Length && a.default == b.default
    ensures a.data[..] == b.data[..] && a.len == b.len <==> a.Contents() == b.Contents()
  {
    if a.Contents() == b.Contents() {
      assert a.len == |a.Contents()| == b.len;
      forall i | 0 <= i < a.data.Length
        ensures a.data[i] == b.data[i]
      {
        if i < a.len {
          assert a.data[i] == a.Contents()[i] == b.Contents()[i];
        }
      }
    }
  }
}
