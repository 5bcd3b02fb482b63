/** The Merkle tree: leaf hashes followed by every level up to the root, in one list. A level of odd
    length hashes its last node with itself. */
module MerkleTrees {
  import opened Wrappers
  import opened Hashing
  import opened Sequences

  // The hash of two children; the tree is written for any such function.
  type Join<!D> = (D, D) -> D

  // ------------------------------------------------------------------ the tree by levels

  // The right partner of node i: its neighbour, or itself at the end of an odd level.
  function RightOf<D>(level: seq<D>, i: nat): (d: D)
    requires i < |level|
  {
    if i + 1 < |level| then level[i + 1] else level[i]
  }

  // Each pair of neighbours under one parent.
  function Parents<D>(join: Join<D>, level: seq<D>): (r: seq<D>)
    ensures |r| == (|level| + 1) / 2
  {
    if level == [] then []
    else if |level| == 1 then [join(level[0], level[0])]
    else [join(level[0], level[1])] + Parents(join, level[2..])
  }

  lemma {:induction false} ParentAt<D>(join: Join<D>, level: seq<D>, i: nat)
    requires i < |Parents(join, level)|
    ensures Parents(join, level)[i] == join(level[2 * i], RightOf(level, 2 * i))
    decreases i
  {
    if i > 0 {
      ParentAt(join, level[2..], i - 1);
    }
  }

  function Flatten<D>(join: Join<D>, level: seq<D>): (r: seq<D>)
    ensures level <= r
    decreases |level|
  {
    if |level| <= 1 then level else level + Flatten(join, Parents(join, level))
  }

  function LeavesOf<I, D>(leaf: I -> D, items: seq<I>): (r: seq<D>)
    ensures |r| == |items| && forall i :: 0 <= i < |items| ==> r[i] == leaf(items[i])
  {
    seq(|items|, i requires 0 <= i < |items| => leaf(items[i]))
  }

  function Root<D>(nodes: seq<D>): (r: Option<D>)
  {
    if nodes == [] then None else Some(nodes[|nodes| - 1])
  }

  function NextLevelLen(n: nat): (m: nat)
  {
    if n == 1 then 0 else (n + 1) / 2
  }

  datatype MerkleTree<D> = MerkleTree(leafCount: nat, nodes: seq<D>)

  ghost predicate TreeOf<D>(t: MerkleTree<D>, join: Join<D>, leaves: seq<D>)
  {
    t.leafCount == |leaves| && t.nodes == Flatten(join, leaves)
  }

  method NewTree<I, D>(leaf: I -> D, join: Join<D>, items: seq<I>) returns (t: MerkleTree<D>)
    ensures TreeOf(t, join, LeavesOf(leaf, items))
  {
    var nodes: seq<D> := [];
    ghost var leaves := LeavesOf(leaf, items);
    for i := 0 to |items|
      invariant nodes == leaves[..i]
    {
      nodes := nodes + [leaf(items[i])];
    }
    assert nodes == leaves;
    nodes := BuildLevels(join, nodes);
    t := MerkleTree(|items|, nodes);
  }

  method BuildLevels<D>(join: Join<D>, leaves: seq<D>) returns (nodes: seq<D>)
    ensures nodes == Flatten(join, leaves)
  {
    nodes := leaves;
    var levelLen := NextLevelLen(|leaves|);
    var levelStart, prevLen, prevStart := |leaves|, |leaves|, 0;
    ghost var level := leaves;
    ghost var below: seq<D> := [];
    while levelLen > 0
      invariant |level| == prevLen && |below| == prevStart && levelStart == prevStart + prevLen
      invariant levelLen == NextLevelLen(prevLen)
      invariant nodes == below + level
      invariant Flatten(join, leaves) == below + Flatten(join, level)
      decreases levelLen
    {
      assert nodes[prevStart..] == level;
      nodes := PushLevel(join, nodes, prevStart, prevLen, levelLen);
      FlattenUp(join, below, level);
      below := below + level;
      level := Parents(join, level);
      prevStart, prevLen := levelStart, levelLen;
      levelStart := levelStart + levelLen;
      levelLen := NextLevelLen(levelLen);
    }
  }

  lemma FlattenUp<D>(join: Join<D>, below: seq<D>, level: seq<D>)
    requires |level| >= 2
    ensures below + Flatten(join, level) == below + level + Flatten(join, Parents(join, level))
  {
    ConcatAssociates(below, level, Flatten(join, Parents(join, level)));
  }

  // Push the parents of the last prevLen nodes.
  method PushLevel<D>(join: Join<D>, before: seq<D>, prevStart: nat, prevLen: nat, levelLen: nat) returns (nodes: seq<D>)
    requires |before| == prevStart + prevLen && levelLen == (prevLen + 1) / 2
    ensures nodes == before + Parents(join, before[prevStart..])
  {
    nodes := before;
    ghost var parents := Parents(join, before[prevStart..]);
    for i := 0 to levelLen
      invariant nodes == before + parents[..i]
    {
      var lsib := nodes[prevStart + 2 * i];
      var rsib := if 2 * i + 1 < prevLen then nodes[prevStart + 2 * i + 1] else nodes[prevStart + 2 * i];
      ParentAt(join, before[prevStart..], i);
      nodes := nodes + [join(lsib, rsib)];
    }
  }

  // ------------------------------------------------------------------ proofs

  datatype ProofEntry<D> = ProofEntry(target: D, left: Option<D>, right: Option<D>)

  // What node i of a level has on its left and on its right: exactly one of the two is given.
  function LeftSibling<D>(level: seq<D>, i: nat): (d: Option<D>)
    requires i < |level|
  {
    if i % 2 == 0 then None else Some(level[i - 1])
  }

  function RightSibling<D>(level: seq<D>, i: nat): (d: Option<D>)
    requires i < |level|
    ensures d.None? <==> LeftSibling(level, i).Some?
  {
    if i % 2 == 0 then Some(RightOf(level, i)) else None
  }

  // The entry that leads from node i of a level to its parent.
  function Link<D>(join: Join<D>, level: seq<D>, i: nat): (e: ProofEntry<D>)
    requires i < |level|
  {
    ProofEntry(Parents(join, level)[i / 2], LeftSibling(level, i), RightSibling(level, i))
  }

  function Path<D>(join: Join<D>, level: seq<D>, i: nat): (p: seq<ProofEntry<D>>)
    requires i < |level|
    decreases |level|
  {
    if |level| <= 1 then [] else [Link(join, level, i)] + Path(join, Parents(join, level), i / 2)
  }

  function Combine<D>(join: Join<D>, e: ProofEntry<D>, candidate: D): (d: D)
  {
    join(if e.left.Some? then e.left.value else candidate, if e.right.Some? then e.right.value else candidate)
  }

  predicate Verify<D(==)>(join: Join<D>, path: seq<ProofEntry<D>>, candidate: D)
  {
    path == [] ||
    (Combine(join, path[0], candidate) == path[0].target && Verify(join, path[1..], path[0].target))
  }

  // The entry for the siblings found one level below, which waits for its target.
  function Pending<D>(target: D, left: Option<D>, right: Option<D>): (p: seq<ProofEntry<D>>)
  {
    if left.Some? || right.Some? then [ProofEntry(target, left, right)] else []
  }

  // Entries `rest` lead from node i of the level to the root.
  ghost predicate IsPath<D>(join: Join<D>, level: seq<D>, i: nat, rest: seq<ProofEntry<D>>)
  {
    i < |level| && rest == Path(join, level, i)
  }

  method FindPath<D>(join: Join<D>, ghost leaves: seq<D>, t: MerkleTree<D>, index: nat) returns (r: Option<seq<ProofEntry<D>>>)
    requires TreeOf(t, join, leaves)
    ensures r.None? <==> index >= t.leafCount
    ensures r.Some? ==> r.value == Path(join, leaves, index)
  {
    if index >= t.leafCount {
      return None;
    }
    var levelLen: nat, levelStart: nat, nodeIndex: nat := t.leafCount, 0, index;
    var path: seq<ProofEntry<D>> := [];
    var lsib: Option<D>, rsib: Option<D> := None, None;
    ghost var level, rest := leaves, Path(join, leaves, index);
    ghost var whole := rest;
    while levelLen > 0
      invariant levelLen > 0 ==> |level| == levelLen && levelStart <= |t.nodes| && t.nodes[levelStart..] == Flatten(join, level)
      invariant levelLen > 0 ==> IsPath(join, level, nodeIndex, rest)
      invariant levelLen > 0 ==> whole == path + Pending(level[nodeIndex], lsib, rsib) + rest
      invariant levelLen == 0 ==> whole == path
      decreases levelLen
    {
      LevelIsSlice(join, t.nodes, level, levelStart);
      var nodes := t.nodes[levelStart..levelStart + levelLen];
      assert nodes == level;
      path := path + Pending(nodes[nodeIndex], lsib, rsib);
      lsib, rsib := Siblings(nodes, nodeIndex);
      level, rest := StepUp(join, level, nodeIndex, path, rest, lsib, rsib);
      nodeIndex := nodeIndex / 2;
      levelStart := levelStart + levelLen;
      levelLen := NextLevelLen(levelLen);
    }
    r := Some(path);
  }

  method Siblings<D>(nodes: seq<D>, i: nat) returns (left: Option<D>, right: Option<D>)
    requires i < |nodes|
    ensures left == LeftSibling(nodes, i) && right == RightSibling(nodes, i)
  {
    if i % 2 == 0 {
      left := None;
      right := Some(if i + 1 < |nodes| then nodes[i + 1] else nodes[i]);
    } else {
      left := Some(nodes[i - 1]);
      right := None;
    }
  }

  // A level is the next slice of the flat list, and the levels above it follow.
  lemma LevelIsSlice<D>(join: Join<D>, nodes: seq<D>, level: seq<D>, start: nat)
    requires start <= |nodes| && nodes[start..] == Flatten(join, level)
    ensures start + |level| <= |nodes| && nodes[start..start + |level|] == level
    ensures |level| >= 2 ==> nodes[start + |level|..] == Flatten(join, Parents(join, level))
  {
    if |level| >= 2 {
      Slices(nodes, start, level, Flatten(join, Parents(join, level)));
    } else {
      Slices(nodes, start, level, []);
    }
  }

  lemma Slices<D>(nodes: seq<D>, start: nat, front: seq<D>, back: seq<D>)
    requires start <= |nodes| && nodes[start..] == front + back
    ensures start + |front| <= |nodes| && nodes[start..start + |front|] == front && nodes[start + |front|..] == back
  {
    assert nodes[start..start + |front|] == nodes[start..][..|front|];
    assert nodes[start + |front|..] == nodes[start..][|front|..];
  }

  // One level up, the sibling just found is the waiting entry.
  lemma StepUp<D>(join: Join<D>, level: seq<D>, i: nat, path: seq<ProofEntry<D>>, rest: seq<ProofEntry<D>>,
                  left: Option<D>, right: Option<D>)
    returns (up: seq<D>, above: seq<ProofEntry<D>>)
    requires IsPath(join, level, i, rest) && left == LeftSibling(level, i) && right == RightSibling(level, i)
    ensures up == Parents(join, level)
    ensures |level| >= 2 ==> IsPath(join, up, i / 2, above)
    ensures |level| >= 2 ==> path + rest == path + Pending(up[i / 2], left, right) + above
    ensures |level| == 1 ==> path + rest == path
  {
    up, above := Parents(join, level), [];
    PathUp(join, level, i);
    if |level| >= 2 {
      above := Path(join, up, i / 2);
      ConcatAssociates(path, [Link(join, level, i)], above);
    }
  }

  lemma PathUp<D>(join: Join<D>, level: seq<D>, i: nat)
    requires i < |level|
    ensures |level| >= 2 ==> Path(join, level, i) == [Link(join, level, i)] + Path(join, Parents(join, level), i / 2)
    ensures |level| == 1 ==> Path(join, level, i) == []
  {
  }

  // ------------------------------------------------------------------ what a proof proves

  lemma LinkLeadsUp<D>(join: Join<D>, level: seq<D>, i: nat)
    requires i < |level|
    ensures Combine(join, Link(join, level, i), level[i]) == Parents(join, level)[i / 2]
  {
    var k := i / 2;
    ParentAt(join, level, k);
    if i % 2 == 0 {
      PairOf(level, i, k);
    } else {
      PairOf(level, i - 1, k);
    }
  }

  lemma PairOf<D>(level: seq<D>, i: nat, k: nat)
    requires i < |level| && i == 2 * k
    ensures level[2 * k] == level[i] && RightOf(level, 2 * k) == if i + 1 < |level| then level[i + 1] else level[i]
  {
  }

  // Every leaf's path verifies that leaf.
  lemma {:induction false} PathVerifies<D>(join: Join<D>, level: seq<D>, i: nat)
    requires i < |level|
    ensures Verify(join, Path(join, level, i), level[i])
    decreases |level|
  {
    if |level| >= 2 {
      PathVerifies(join, Parents(join, level), i / 2);
      LinkLeadsUp(join, level, i);
      assert Path(join, level, i)[1..] == Path(join, Parents(join, level), i / 2);
    }
  }

  lemma FlattenEnds<D>(join: Join<D>, level: seq<D>)
    requires |level| >= 2
    ensures Root(Flatten(join, level)) == Root(Flatten(join, Parents(join, level)))
  {
    RootOfConcat(level, Flatten(join, Parents(join, level)));
  }

  lemma RootOfConcat<D>(a: seq<D>, b: seq<D>)
    requires b != []
    ensures Root(a + b) == Root(b)
  {
  }

  // With two or more leaves the path leads to the root of the tree.
  lemma {:induction false} PathEndsAtRoot<D>(join: Join<D>, level: seq<D>, i: nat)
    requires i < |level| && |level| >= 2
    ensures Path(join, level, i) != []
    ensures Root(Flatten(join, level)) == Some(Path(join, level, i)[|Path(join, level, i)| - 1].target)
    decreases |level|
  {
    var up := Parents(join, level);
    var rest := Path(join, up, i / 2);
    FlattenEnds(join, level);
    assert Path(join, level, i) == [Link(join, level, i)] + rest;
    if |up| >= 2 {
      PathEndsAtRoot(join, up, i / 2);
    } else {
      assert rest == [] && Flatten(join, up) == up;
    }
  }

  // If another candidate verifies on a leaf's path, two different pairs hash to the same value.
  lemma ForgeryIsCollision<D>(join: Join<D>, level: seq<D>, i: nat, candidate: D) returns (a: (D, D), b: (D, D))
    requires i < |level| && |level| >= 2 && candidate != level[i] && Verify(join, Path(join, level, i), candidate)
    ensures a != b && join(a.0, a.1) == join(b.0, b.1)
  {
    var e := Link(join, level, i);
    assert Path(join, level, i)[0] == e;
    LinkLeadsUp(join, level, i);
    if i % 2 == 0 {
      a, b := (candidate, e.right.value), (level[i], e.right.value);
    } else {
      a, b := (e.left.value, candidate), (e.left.value, level[i]);
    }
  }

  ghost predicate Injective<D(!new)>(join: Join<D>)
  {
    forall l, r, l', r' :: join(l, r) == join(l', r') ==> l == l' && r == r'
  }

  ghost predicate VerifiesOnly<D(!new)>(join: Join<D>, path: seq<ProofEntry<D>>, d: D)
  {
    forall c :: Verify(join, path, c) ==> c == d
  }

  // With an injective hash a leaf's path verifies that leaf alone, exactly when there are two or more
  // leaves: a single leaf has an empty path, which verifies everything.
  lemma OnlyTheLeafVerifiesIff<D(!new)>(join: Join<D>, level: seq<D>, i: nat, other: D)
    requires Injective(join) && i < |level| && other != level[i]
    ensures VerifiesOnly(join, Path(join, level, i), level[i]) <==> |level| >= 2
  {
    if |level| >= 2 {
      forall c | Verify(join, Path(join, level, i), c) ensures c == level[i] {
        if c != level[i] {
          var a, b := ForgeryIsCollision(join, level, i, c);
        }
      }
    } else {
      assert Path(join, level, i) == [] && Verify(join, [], other);
    }
  }

  // ------------------------------------------------------------------ the hashes of the tree

  function HashLeaf(sha: Sha256): (leaf: Bytes -> Digest)
  {
    (item: Bytes) => sha([0] + item)
  }

  function HashNode(sha: Sha256): (join: Join<Digest>)
  {
    (l: Digest, r: Digest) => sha([1] + l + r)
  }

  // A pair of children is read back from the hashed bytes, so a collision of node hashes is one of SHA-256.
  lemma NodeCollision(sha: Sha256, a: (Digest, Digest), b: (Digest, Digest)) returns (x: Bytes, y: Bytes)
    requires a != b && HashNode(sha)(a.0, a.1) == HashNode(sha)(b.0, b.1)
    ensures x != y && sha(x) == sha(y)
  {
    x, y := [1] + a.0 + a.1, [1] + b.0 + b.1;
    assert x[1..33] == a.0 && x[33..] == a.1 && y[1..33] == b.0 && y[33..] == b.1;
  }

  // Leaves and inner nodes hash different inputs, so a leaf that passes for a node is a collision too.
  lemma LeafForNodeIsCollision(sha: Sha256, item: Bytes, l: Digest, r: Digest) returns (x: Bytes, y: Bytes)
    requires HashLeaf(sha)(item) == HashNode(sha)(l, r)
    ensures x != y && sha(x) == sha(y)
  {
    x, y := [0] + item, [1] + l + r;
    assert x[0] == 0 && y[0] == 1;
  }

  // In a tree of two or more items, an item other than the i-th that verifies on the i-th path gives a
  // collision of SHA-256.
  lemma ItemForgeryIsCollision(sha: Sha256, items: seq<Bytes>, i: nat, item: Bytes) returns (x: Bytes, y: Bytes)
    requires |items| >= 2 && i < |items| && item != items[i]
    requires Verify(HashNode(sha), Path(HashNode(sha), LeavesOf(HashLeaf(sha), items), i), HashLeaf(sha)(item))
    ensures x != y && sha(x) == sha(y)
  {
    var leaves := LeavesOf(HashLeaf(sha), items);
    if HashLeaf(sha)(item) == leaves[i] {
      x, y := [0] + item, [0] + items[i];
      assert x[1..] == item && y[1..] == items[i];
    } else {
      var a, b := ForgeryIsCollision(HashNode(sha), leaves, i, HashLeaf(sha)(item));
      x, y := NodeCollision(sha, a, b);
    }
  }

  // A hash that keeps the first of two children, and one that keeps the second.
  function KeepLeft(): (sha: Sha256) { (x: Bytes) => if |x| == 65 then x[1..33] else seq(32, _ => 0) }

  function KeepRight(): (sha: Sha256) { (x: Bytes) => if |x| == 65 then x[33..] else seq(32, _ => 0) }

  lemma KeepsChild(l: Digest, r: Digest)
    ensures HashNode(KeepLeft())(l, r) == l && HashNode(KeepRight())(l, r) == r
  {
    var x := [1] + l + r;
    assert x[1..33] == l && x[33..] == r;
  }

  lemma {:induction false} RootFromTheLeft(level: seq<Digest>)
    requires level != []
    ensures Root(Flatten(HashNode(KeepLeft()), level)) == Some(level[0])
    decreases |level|
  {
    if |level| >= 2 {
      var join := HashNode(KeepLeft());
      RootFrom(join, level);
      ParentAt(join, level, 0);
      KeepsChild(level[0], RightOf(level, 0));
      RootFromTheLeft(Parents(join, level));
    }
  }

  lemma {:induction false} RootFromTheRight(level: seq<Digest>)
    requires level != []
    ensures Root(Flatten(HashNode(KeepRight()), level)) == Some(level[|level| - 1])
    decreases |level|
  {
    if |level| >= 2 {
      var join := HashNode(KeepRight());
      var last := 2 * (|Parents(join, level)| - 1);
      RootFrom(join, level);
      ParentAt(join, level, |Parents(join, level)| - 1);
      KeepsChild(level[last], RightOf(level, last));
      RootFromTheRight(Parents(join, level));
    }
  }

  // The children of every node stand in order: a hash that keeps the first child makes the first leaf the root, and
  // one that keeps the second the last leaf.
  lemma RootKeepsOrder(level: seq<Digest>)
    requires level != []
    ensures Root(Flatten(HashNode(KeepLeft()), level)) == Some(level[0])
    ensures Root(Flatten(HashNode(KeepRight()), level)) == Some(level[|level| - 1])
  {
    RootFromTheLeft(level);
    RootFromTheRight(level);
  }

  lemma RootFrom<D>(join: Join<D>, level: seq<D>)
    requires |level| >= 2
    ensures Root(Flatten(join, level)) == Root(Flatten(join, Parents(join, level)))
  {
    FlattenEnds(join, level);
  }

  // ------------------------------------------------------------------ size

  function CeilLog2(n: nat): (k: nat)
  {
    if n <= 1 then 0 else 1 + CeilLog2((n + 1) / 2)
  }

  lemma {:induction false} CeilLog2Meaning(n: nat)
    ensures n <= Pow2(CeilLog2(n))
    ensures n >= 2 ==> Pow2(CeilLog2(n) - 1) < n
  {
    if n >= 2 {
      var m := (n + 1) / 2;
      CeilLog2Meaning(m);
      if m >= 2 {
        assert Pow2(CeilLog2(n) - 1) == 2 * Pow2(CeilLog2(m) - 1);
      }
    }
  }

  lemma {:induction false} NodeCount<D>(join: Join<D>, level: seq<D>)
    requires level != []
    ensures |Flatten(join, level)| <= 2 * |level| - 1 + CeilLog2(|level|)
    decreases |level|
  {
    if |level| >= 2 {
      NodeCount(join, Parents(join, level));
    }
  }
}
