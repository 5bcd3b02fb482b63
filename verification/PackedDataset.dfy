/** The packed dataset: samples are read in groups, each group is packed into bins, and each bin becomes one
    padded pack. */
module PackedDatasets {
  import opened Wrappers
  import opened Sequences
  import opened Packing

  // ------------------------------------------------------------------ what the groups hold

  // The samples that fit a pack, in order.
  function Kept(length: nat, ds: seq<Sample>): (r: seq<Sample>)
    ensures forall s :: s in r ==> |s.inputs| <= length
    ensures |r| <= |ds|
  {
    if ds == [] then []
    else
      var front, s := Kept(length, ds[..|ds| - 1]), ds[|ds| - 1];
      if |s.inputs| <= length then front + [s] else front
  }

  lemma KeptPush(length: nat, ds: seq<Sample>, s: Sample)
    ensures Kept(length, ds + [s]) == if |s.inputs| <= length then Kept(length, ds) + [s] else Kept(length, ds)
  {
    assert (ds + [s])[..|ds|] == ds;
  }

  lemma KeptNext(length: nat, ds: seq<Sample>, p: nat, q: nat)
    requires p <= q < |ds|
    ensures Kept(length, ds[p..q + 1]) ==
      Kept(length, ds[p..q]) + if |ds[q].inputs| <= length then [ds[q]] else []
  {
    assert ds[p..q + 1] == ds[p..q] + [ds[q]];
    KeptPush(length, ds[p..q], ds[q]);
  }

  lemma {:induction false} KeptAppend(length: nat, a: seq<Sample>, b: seq<Sample>)
    ensures Kept(length, a + b) == Kept(length, a) + Kept(length, b)
    decreases |b|
  {
    if b == [] {
      assert a + b == a;
    } else {
      var front, s := b[..|b| - 1], b[|b| - 1];
      KeptAppend(length, a, front);
      KeptPush(length, a + front, s);
      KeptPush(length, front, s);
      AppendSnoc(a, b);
      assert b == front + [s];
      ConcatAssociates(Kept(length, a), Kept(length, front), [s]);
    }
  }

  lemma {:induction false} NoneKeptIff(length: nat, ds: seq<Sample>)
    ensures Kept(length, ds) == [] <==> forall i :: 0 <= i < |ds| ==> |ds[i].inputs| > length
  {
    if ds != [] {
      NoneKeptIff(length, ds[..|ds| - 1]);
      assert ds[|ds| - 1] in ds;
    }
  }

  // The end of the group that starts at p.
  function GroupEnd(ds: seq<Sample>, groupSize: nat, p: nat): (e: nat)
    requires p <= |ds|
    ensures p <= e <= |ds|
  {
    if p + groupSize <= |ds| then p + groupSize else |ds|
  }

  // The samples packed from p on: reading stops at the first group without a sample that fits.
  function Reached(length: nat, groupSize: nat, ds: seq<Sample>, p: nat): (r: seq<Sample>)
    requires p <= |ds|
    decreases |ds| - p
  {
    var e := GroupEnd(ds, groupSize, p);
    var group := Kept(length, ds[p..e]);
    if group == [] then [] else group + Reached(length, groupSize, ds, e)
  }

  // How far reading gets: past the first group without a sample that fits.
  function Seen(length: nat, groupSize: nat, ds: seq<Sample>, p: nat): (n: nat)
    requires p <= |ds|
    decreases |ds| - p
  {
    var e := GroupEnd(ds, groupSize, p);
    if Kept(length, ds[p..e]) == [] then e else Seen(length, groupSize, ds, e)
  }

  // How many groups are packed.
  function Groups(length: nat, groupSize: nat, ds: seq<Sample>, p: nat): (n: nat)
    requires p <= |ds|
    decreases |ds| - p
  {
    var e := GroupEnd(ds, groupSize, p);
    if Kept(length, ds[p..e]) == [] then 0 else 1 + Groups(length, groupSize, ds, e)
  }

  // All groups but the last are full, so there are no more groups than the samples make.
  lemma {:induction false} GroupsAreFull(length: nat, groupSize: nat, ds: seq<Sample>, p: nat)
    requires p <= |ds|
    ensures Groups(length, groupSize, ds, p) > 0 ==> p + (Groups(length, groupSize, ds, p) - 1) * groupSize < |ds|
    decreases |ds| - p
  {
    var e := GroupEnd(ds, groupSize, p);
    if Kept(length, ds[p..e]) != [] {
      GroupsAreFull(length, groupSize, ds, e);
      var n := Groups(length, groupSize, ds, e);
      assert n * groupSize == (n - 1) * groupSize + groupSize;
    }
  }

  // Where group k starts.
  function Start(groupSize: nat, k: nat): (p: nat)
  {
    k * groupSize
  }

  lemma {:induction false} StartsIncrease(groupSize: nat, j: nat, k: nat)
    requires j < k
    ensures Start(groupSize, j + 1) == Start(groupSize, j) + groupSize <= Start(groupSize, k)
    decreases k
  {
    if j + 1 < k {
      StartsIncrease(groupSize, j, k - 1);
      OneMore(k - 1, groupSize);
    }
  }

  // Every group that starts no later than a fitting sample has a fitting sample of its own.
  ghost predicate NoBarrenGap(length: nat, groupSize: nat, ds: seq<Sample>)
  {
    forall k: nat, q :: Start(groupSize, k) <= q < |ds| && |ds[q].inputs| <= length ==>
      Kept(length, ds[Start(groupSize, k)..GroupEnd(ds, groupSize, Start(groupSize, k))]) != []
  }

  lemma {:induction false} GapFreeReachesAll(length: nat, groupSize: nat, ds: seq<Sample>, k: nat, p: nat)
    requires p <= |ds| && (p == Start(groupSize, k) || p == |ds|) && NoBarrenGap(length, groupSize, ds)
    ensures Reached(length, groupSize, ds, p) == Kept(length, ds[p..])
    decreases |ds| - p
  {
    var e := GroupEnd(ds, groupSize, p);
    var group := Kept(length, ds[p..e]);
    if group == [] {
      NoneKeptIff(length, ds[p..]);
      forall i | 0 <= i < |ds[p..]|
        ensures |ds[p..][i].inputs| > length
      {
        assert ds[p..][i] == ds[p + i];
      }
    } else {
      StartsIncrease(groupSize, k, k + 1);
      GapFreeReachesAll(length, groupSize, ds, k + 1, e);
      KeptSplit(length, ds, p, e);
    }
  }

  lemma KeptSome(length: nat, ds: seq<Sample>, o: nat, q: nat)
    requires o <= q < |ds| && |ds[q].inputs| <= length
    ensures Kept(length, ds[o..]) != []
  {
    NoneKeptIff(length, ds[o..]);
    assert ds[o..][q - o] == ds[q];
  }

  lemma KeptSplit(length: nat, ds: seq<Sample>, o: nat, e: nat)
    requires o <= e <= |ds|
    ensures Kept(length, ds[o..]) == Kept(length, ds[o..e]) + Kept(length, ds[e..])
  {
    KeptAppend(length, ds[o..e], ds[e..]);
    assert ds[o..] == ds[o..e] + ds[e..];
  }

  lemma {:induction false} BarrenGapLoses(length: nat, groupSize: nat, ds: seq<Sample>, j: nat, o: nat, k: nat, p: nat, q: nat)
    requires o == Start(groupSize, j) && p == Start(groupSize, k)
    requires j <= k && o <= p <= q < |ds| && |ds[q].inputs| <= length
    requires Kept(length, ds[p..GroupEnd(ds, groupSize, p)]) == []
    ensures |Reached(length, groupSize, ds, o)| < |Kept(length, ds[o..])|
    decreases k - j
  {
    var e := GroupEnd(ds, groupSize, o);
    KeptSome(length, ds, o, q);
    if j < k && Kept(length, ds[o..e]) != [] {
      StartsIncrease(groupSize, j, k);
      BarrenGapLoses(length, groupSize, ds, j + 1, e, k, p, q);
      KeptSplit(length, ds, o, e);
    }
  }

  // All samples that fit are packed exactly when no group without one comes before one of them.
  lemma AllKeptAreReachedIff(length: nat, groupSize: nat, ds: seq<Sample>)
    ensures Reached(length, groupSize, ds, 0) == Kept(length, ds) <==> NoBarrenGap(length, groupSize, ds)
  {
    assert ds[0..] == ds && Start(groupSize, 0) == 0;
    if NoBarrenGap(length, groupSize, ds) {
      GapFreeReachesAll(length, groupSize, ds, 0, 0);
    } else {
      var k: nat, q :| Start(groupSize, k) <= q < |ds| && |ds[q].inputs| <= length &&
        Kept(length, ds[Start(groupSize, k)..GroupEnd(ds, groupSize, Start(groupSize, k))]) == [];
      BarrenGapLoses(length, groupSize, ds, 0, 0, k, Start(groupSize, k), q);
    }
  }

  // A sample that is too long, in a group of its own, hides the one behind it.
  lemma BarrenGapExample() returns (ds: seq<Sample>)
    ensures Kept(1, ds) == [Sample([7], [7])] && Reached(1, 1, ds, 0) == []
  {
    ds := [Sample([7, 7], [7, 7]), Sample([7], [7])];
    assert ds[..1] == [ds[0]] && ds[..1][..0] == [];
    assert Kept(1, ds[..1]) == [];
    assert ds[0..1] == ds[..1];
  }

  // ------------------------------------------------------------------ the packers

  method FindFirst(bins: seq<Bin>, n: nat) returns (k: nat)
    ensures k == FirstFit(bins, n)
  {
    k := 0;
    while k < |bins| && bins[k].space < n
      invariant k <= |bins| && forall j :: 0 <= j < k ==> bins[j].space < n
    {
      k := k + 1;
    }
  }

  /** First-fit over one group: each sample goes into the first bin with room for it. */
  method FirstFitGroup(length: nat, group: seq<Sample>) returns (bins: seq<Bin>)
    requires forall s :: s in group ==> |s.inputs| <= length
    ensures bins == FirstFitAll(length, group)
    ensures IsPacking(length, group, bins)
  {
    bins := [];
    assert group[..0] == [];
    for i := 0 to |group|
      invariant bins == FirstFitAll(length, group[..i])
    {
      var s := group[i];
      var k := FindFirst(bins, |s.inputs|);
      assert group[..i + 1] == group[..i] + [s] && group[..i + 1][..i] == group[..i];
      bins := Place(length, bins, k, s);
    }
    assert group[..|group|] == group;
    FirstFitIsPacking(length, group);
  }

  /** Any one of the bins with room for the sample, or the number of bins when there is none. */
  method ChooseFitting(bins: seq<Bin>, s: Sample) returns (k: nat)
    ensures AnyFit(bins, k, s)
  {
    var fitting: seq<nat> := [];
    for j := 0 to |bins|
      invariant forall i :: 0 <= i < |fitting| ==> fitting[i] < |bins| && bins[fitting[i]].space >= |s.inputs|
      invariant fitting == [] ==> forall i :: 0 <= i < j ==> bins[i].space < |s.inputs|
    {
      if bins[j].space >= |s.inputs| {
        fitting := fitting + [j];
      }
    }
    if fitting == [] {
      return |bins|;
    }
    var c: nat :| c < |fitting|;
    return fitting[c];
  }

  method PlaceAnywhere(length: nat, ghost placed: seq<Sample>, bins: seq<Bin>, s: Sample) returns (r: seq<Bin>)
    requires IsPacking(length, placed, bins) && |s.inputs| <= length
    ensures IsPacking(length, placed + [s], r)
  {
    var k := ChooseFitting(bins, s);
    AnyFitKeepsPacking(length, placed, bins, k, s);
    r := Place(length, bins, k, s);
  }

  /** Random-fit over one group: each sample goes into any bin with room for it. */
  method RandomFitGroup(length: nat, group: seq<Sample>) returns (bins: seq<Bin>)
    requires forall s :: s in group ==> |s.inputs| <= length
    ensures IsPacking(length, group, bins)
  {
    bins := [];
    ghost var placed: seq<Sample> := [];
    assert IsPacking(length, placed, bins);
    for i := 0 to |group|
      invariant placed == group[..i]
      invariant IsPacking(length, placed, bins)
    {
      bins := PlaceAnywhere(length, placed, bins, group[i]);
      placed := placed + [group[i]];
    }
    assert placed == group;
  }

  // ------------------------------------------------------------------ order of samples and bins

  function InsertByLength(r: seq<Sample>, s: Sample): (r': seq<Sample>)
  {
    if r == [] || |r[|r| - 1].inputs| >= |s.inputs| then r + [s]
    else InsertByLength(r[..|r| - 1], s) + [r[|r| - 1]]
  }

  // A stable sort, longest first.
  function SortByLength(group: seq<Sample>): (r: seq<Sample>)
  {
    if group == [] then [] else InsertByLength(SortByLength(group[..|group| - 1]), group[|group| - 1])
  }

  lemma {:induction false} InsertKeepsSamples(r: seq<Sample>, s: Sample)
    ensures multiset(InsertByLength(r, s)) == multiset(r) + multiset{s}
  {
    if r != [] && |r[|r| - 1].inputs| < |s.inputs| {
      assert r == r[..|r| - 1] + [r[|r| - 1]];
      InsertKeepsSamples(r[..|r| - 1], s);
    }
  }

  lemma {:induction false} InsertIsSorted(r: seq<Sample>, s: Sample)
    requires Decreasing(r)
    ensures Decreasing(InsertByLength(r, s))
    ensures forall x :: x in InsertByLength(r, s) ==> x == s || x in r
  {
    if r != [] && |r[|r| - 1].inputs| < |s.inputs| {
      var front, last := r[..|r| - 1], r[|r| - 1];
      InsertIsSorted(front, s);
      forall x | x in front
        ensures |x.inputs| >= |last.inputs|
      {
      }
    }
  }

  lemma {:induction false} SortIsSorted(group: seq<Sample>)
    ensures Decreasing(SortByLength(group)) && multiset(SortByLength(group)) == multiset(group)
  {
    if group != [] {
      SortIsSorted(group[..|group| - 1]);
      InsertIsSorted(SortByLength(group[..|group| - 1]), group[|group| - 1]);
      InsertKeepsSamples(SortByLength(group[..|group| - 1]), group[|group| - 1]);
      assert group == group[..|group| - 1] + [group[|group| - 1]];
    }
  }

  // The samples of one length, in order.
  function OfLength(s: seq<Sample>, n: nat): (r: seq<Sample>)
  {
    if s == [] then [] else OfLength(s[..|s| - 1], n) + if |s[|s| - 1].inputs| == n then [s[|s| - 1]] else []
  }

  lemma {:induction false} InsertIsLastOfLength(r: seq<Sample>, s: Sample, n: nat)
    requires Decreasing(r)
    ensures OfLength(InsertByLength(r, s), n) == OfLength(r, n) + if |s.inputs| == n then [s] else []
  {
    if r == [] || |r[|r| - 1].inputs| >= |s.inputs| {
      assert (r + [s])[..|r|] == r;
    } else {
      var front, last := r[..|r| - 1], r[|r| - 1];
      InsertIsLastOfLength(front, s, n);
      assert (InsertByLength(front, s) + [last])[..|InsertByLength(front, s)|] == InsertByLength(front, s);
    }
  }

  // Samples of one length stay in their order.
  lemma {:induction false} SortIsStable(group: seq<Sample>, n: nat)
    ensures OfLength(SortByLength(group), n) == OfLength(group, n)
  {
    if group != [] {
      var front := group[..|group| - 1];
      SortIsStable(front, n);
      SortIsSorted(front);
      InsertIsLastOfLength(SortByLength(front), group[|group| - 1], n);
    }
  }

  /** Draws each element in turn from those that remain. */
  method RandomShuffle<T>(s: seq<T>) returns (r: seq<T>)
    ensures multiset(r) == multiset(s)
  {
    r := s;
    var i := |s|;
    while i > 1
      invariant multiset(r) == multiset(s) && |r| == |s|
    {
      i := i - 1;
      var j: nat :| j <= i;
      r := r[i := r[j]][j := r[i]];
    }
  }

  lemma WithoutOne<T>(b: seq<T>, k: nat)
    requires k < |b|
    ensures multiset(b[..k] + b[k + 1..]) == multiset(b) - multiset{b[k]}
  {
    assert b == b[..k] + [b[k]] + b[k + 1..];
  }

  // The last element of one order is somewhere in the other, and the rest are the same.
  lemma LastIsSomewhere<T>(a: seq<T>, b: seq<T>) returns (k: nat)
    requires a != [] && multiset(a) == multiset(b)
    ensures k < |b| && b[k] == a[|a| - 1] && multiset(a[..|a| - 1]) == multiset(b[..k] + b[k + 1..])
  {
    var last := |a| - 1;
    assert a[last] in multiset(b);
    k :| k < |b| && b[k] == a[last];
    WithoutOne(a, last);
    WithoutOne(b, k);
    assert a[..last] + a[last + 1..] == a[..last];
  }

  lemma {:induction false} TokensPermuted(a: seq<Sample>, b: seq<Sample>)
    requires multiset(a) == multiset(b)
    ensures Tokens(a) == Tokens(b)
    decreases |a|
  {
    if a == [] {
      assert |multiset(b)| == 0;
    } else {
      var k := LastIsSomewhere(a, b);
      TokensPermuted(a[..|a| - 1], b[..k] + b[k + 1..]);
      TokensWithout(b, k);
    }
  }

  lemma {:induction false} ContentsPermuted(a: seq<Bin>, b: seq<Bin>)
    requires multiset(a) == multiset(b)
    ensures Contents(a) == Contents(b)
    decreases |a|
  {
    if a == [] {
      assert |multiset(b)| == 0;
    } else {
      var k := LastIsSomewhere(a, b);
      ContentsPermuted(a[..|a| - 1], b[..k] + b[k + 1..]);
      ContentsWithout(b, k);
    }
  }

  lemma {:induction false} ContentsWithout(b: seq<Bin>, k: nat)
    requires k < |b|
    ensures Contents(b) == Contents(b[..k] + b[k + 1..]) + multiset(b[k].samples)
    decreases |b|
  {
    if k == |b| - 1 {
      assert b[..k] + b[k + 1..] == b[..k];
    } else {
      var front, last := b[..|b| - 1], b[|b| - 1];
      var rest := front[..k] + front[k + 1..];
      ContentsWithout(front, k);
      ContentsPush(rest, last);
      WithoutFront(b, k);
      SumsExchange(Contents(rest), multiset(b[k].samples), multiset(last.samples));
    }
  }

  lemma WithoutFront<T>(b: seq<T>, k: nat)
    requires k < |b| - 1
    ensures var front := b[..|b| - 1];
      b[..k] + b[k + 1..] == front[..k] + front[k + 1..] + [b[|b| - 1]]
  {
  }

  lemma SumsExchange<T>(x: multiset<T>, y: multiset<T>, z: multiset<T>)
    ensures (x + y) + z == (x + z) + y
  {
  }

  lemma ContentsPush(bins: seq<Bin>, b: Bin)
    ensures Contents(bins + [b]) == Contents(bins) + multiset(b.samples)
    ensures Load(bins + [b]) == Load(bins) + Tokens(b.samples)
  {
    assert (bins + [b])[..|bins|] == bins;
  }

  lemma {:induction false} ContentsAppend(a: seq<Bin>, b: seq<Bin>)
    ensures Contents(a + b) == Contents(a) + Contents(b)
    decreases |b|
  {
    if b == [] {
      assert a + b == a;
    } else {
      var front, last := b[..|b| - 1], b[|b| - 1];
      ContentsAppend(a, front);
      AppendSnoc(a, b);
      ContentsPush(a + front, last);
      SumsAssociate(Contents(a), Contents(front), multiset(last.samples));
    }
  }

  lemma AppendSnoc<T>(a: seq<T>, b: seq<T>)
    requires b != []
    ensures a + b == a + b[..|b| - 1] + [b[|b| - 1]]
  {
  }

  lemma SumsAssociate<T>(x: multiset<T>, y: multiset<T>, z: multiset<T>)
    ensures (x + y) + z == x + (y + z)
  {
  }

  lemma {:induction false} LoadAppend(a: seq<Bin>, b: seq<Bin>)
    ensures Load(a + b) == Load(a) + Load(b)
    decreases |b|
  {
    if b == [] {
      assert a + b == a;
    } else {
      var front, last := b[..|b| - 1], b[|b| - 1];
      LoadAppend(a, front);
      AppendSnoc(a, b);
      ContentsPush(a + front, last);
    }
  }

  lemma {:induction false} TokensWithout(b: seq<Sample>, k: nat)
    requires k < |b|
    ensures Tokens(b) == Tokens(b[..k] + b[k + 1..]) + |b[k].inputs|
    decreases |b|
  {
    if k == |b| - 1 {
      assert b[..k] + b[k + 1..] == b[..k];
    } else {
      var front := b[..|b| - 1];
      TokensWithout(front, k);
      TokensPush(front[..k] + front[k + 1..], b[|b| - 1]);
      WithoutFront(b, k);
    }
  }

  lemma TwoPlaces<T>(s: seq<T>, x: T) returns (i: nat, j: nat)
    requires multiset(s)[x] >= 2
    ensures i < j < |s| && s[i] == x && s[j] == x
  {
    assert x in multiset(s);
    i :| i < |s| && s[i] == x;
    assert s == s[..i] + [x] + s[i + 1..];
    if x in s[i + 1..] {
      j :| j < |s[i + 1..]| && s[i + 1..][j] == x;
      j := i + 1 + j;
    } else {
      assert x in multiset(s[..i]);
      j := i;
      i :| i < |s[..j]| && s[..j][i] == x;
    }
  }

  lemma CrowdedPermuted(length: nat, a: seq<Bin>, b: seq<Bin>)
    requires Crowded(length, a) && multiset(a) == multiset(b)
    ensures Crowded(length, b)
  {
    forall i, j | 0 <= i < j < |b|
      ensures Tokens(b[i].samples) + Tokens(b[j].samples) > length
    {
      assert b[i] in multiset(b) && b[j] in multiset(b);
      if b[i] == b[j] {
        RepeatCounts(b, i, j);
        var k, l := TwoPlaces(a, b[i]);
      } else {
        assert b[i] in a && b[j] in a;
      }
    }
  }

  // ------------------------------------------------------------------ the dataset object

  function PackOf(length: nat, padding: int, samples: seq<Sample>): (p: Pack)
    requires Tokens(samples) <= length
  {
    PackIsFull(length, padding, samples);
    Padded(length, padding, Joined(samples))
  }

  // The packs are those of the bins.
  ghost predicate Matches(length: nat, padding: int, packs: seq<Pack>, bins: seq<Bin>)
  {
    && Measured(length, bins)
    && |packs| == |bins|
    && forall i :: 0 <= i < |packs| ==> packs[i] == PackOf(length, padding, bins[i].samples)
  }

  lemma MatchesPush(length: nat, padding: int, packs: seq<Pack>, bins: seq<Bin>, bin: Bin)
    requires Matches(length, padding, packs, bins) && Tokens(bin.samples) + bin.space == length && bin.space >= 0
    ensures Matches(length, padding, packs + [PackOf(length, padding, bin.samples)], bins + [bin])
  {
  }

  lemma OneMore(n: nat, d: nat)
    ensures (n + 1) * d == n * d + d
  {
  }

  // The same samples in each bin, in some order.
  ghost predicate Rearranged(a: seq<Bin>, b: seq<Bin>)
  {
    |a| == |b| && forall i :: 0 <= i < |a| ==> multiset(a[i].samples) == multiset(b[i].samples) && a[i].space == b[i].space
  }

  lemma RearrangedPush(bins: seq<Bin>, i: nat, added: seq<Bin>, b: Bin)
    requires i < |bins| && Rearranged(bins[..i], added)
    requires multiset(bins[i].samples) == multiset(b.samples) && bins[i].space == b.space
    ensures Rearranged(bins[..i + 1], added + [b])
  {
  }

  lemma {:induction false} RearrangedContents(a: seq<Bin>, b: seq<Bin>)
    requires Rearranged(a, b)
    ensures Contents(a) == Contents(b)
  {
    if a != [] {
      RearrangedContents(a[..|a| - 1], b[..|b| - 1]);
    }
  }

  lemma RearrangedSame(length: nat, a: seq<Bin>, b: seq<Bin>)
    requires Rearranged(a, b) && Measured(length, a)
    ensures Measured(length, b) && Contents(a) == Contents(b)
    ensures Crowded(length, a) ==> Crowded(length, b)
  {
    RearrangedContents(a, b);
    forall i | 0 <= i < |a|
      ensures Tokens(a[i].samples) == Tokens(b[i].samples)
    {
      TokensPermuted(a[i].samples, b[i].samples);
    }
  }

  lemma SameMembers<T>(a: seq<T>, b: seq<T>)
    requires multiset(a) == multiset(b)
    ensures forall x :: x in b ==> x in a
  {
    forall x | x in b
      ensures x in a
    {
      assert x in multiset(b);
    }
  }

  lemma MeasuredPermuted(length: nat, a: seq<Bin>, b: seq<Bin>)
    requires Measured(length, a) && multiset(a) == multiset(b)
    ensures Measured(length, b)
  {
    SameMembers(a, b);
    forall i | 0 <= i < |b|
      ensures 0 <= b[i].space && Tokens(b[i].samples) + b[i].space == length
    {
      assert b[i] in a;
    }
  }

  // ------------------------------------------------------------------ against any other packing

  // The samples of all bins, in order.
  function Gathered(bins: seq<Bin>): (r: seq<Sample>)
  {
    if bins == [] then [] else Gathered(bins[..|bins| - 1]) + bins[|bins| - 1].samples
  }

  lemma {:induction false} TokensAppend(a: seq<Sample>, b: seq<Sample>)
    ensures Tokens(a + b) == Tokens(a) + Tokens(b)
    decreases |b|
  {
    if b == [] {
      assert a + b == a;
    } else {
      TokensAppend(a, b[..|b| - 1]);
      AppendSnoc(a, b);
      TokensPush(a + b[..|b| - 1], b[|b| - 1]);
    }
  }

  lemma {:induction false} GatheredFacts(bins: seq<Bin>)
    ensures multiset(Gathered(bins)) == Contents(bins) && Tokens(Gathered(bins)) == Load(bins)
  {
    if bins != [] {
      GatheredFacts(bins[..|bins| - 1]);
      TokensAppend(Gathered(bins[..|bins| - 1]), bins[|bins| - 1].samples);
    }
  }

  lemma {:induction false} FullBins(length: nat, bins: seq<Bin>)
    requires Measured(length, bins)
    ensures Load(bins) <= |bins| * length
  {
    if bins != [] {
      FullBins(length, bins[..|bins| - 1]);
      assert |bins| * length == (|bins| - 1) * length + length;
    }
  }

  lemma SameLoad(a: seq<Bin>, b: seq<Bin>)
    requires Contents(a) == Contents(b)
    ensures Load(a) == Load(b)
  {
    GatheredFacts(a);
    GatheredFacts(b);
    TokensPermuted(Gathered(a), Gathered(b));
  }

  lemma TwiceIsTooMany(n: nat, m: nat, length: nat)
    requires 0 < n && 2 * m <= n
    ensures 2 * (m * length) < n * (length + 1)
  {
    assert n * (length + 1) == n * length + n;
    assert (2 * m) * length <= n * length;
  }

  // No packing of the same samples gets by with half of the bins.
  lemma WithinTwiceTheOptimum(length: nat, bins: seq<Bin>, others: seq<Bin>)
    requires Crowded(length, bins) && Contents(bins) != multiset{}
    requires Measured(length, others) && Contents(others) == Contents(bins)
    ensures |bins| < 2 * |others|
  {
    if |bins| >= 2 {
      PairsFill(length, bins);
      SameLoad(bins, others);
      FullBins(length, others);
      if 2 * |others| <= |bins| {
        TwiceIsTooMany(|bins|, |others|, length);
      }
    }
  }

  lemma CrowdedCost(length: nat, bins: seq<Bin>)
    requires Crowded(length, bins)
    ensures (|bins| - 1) * length <= 2 * Load(bins)
  {
    if |bins| >= 2 {
      PairsFill(length, bins);
      assert |bins| * (length + 1) == (|bins| - 1) * length + length + |bins|;
    }
  }

  // A crowded batch of bins costs at most one length more than twice its tokens.
  lemma GroupCost(length: nat, before: seq<Bin>, added: seq<Bin>)
    requires Crowded(length, added)
    ensures |before + added| * length <= |before| * length + 2 * Load(added) + length
    ensures Load(before + added) == Load(before) + Load(added)
  {
    CrowdedCost(length, added);
    LoadAppend(before, added);
    Distribute(|before|, |added|, length);
  }

  // The bins so far and one more for each group still to come stay within twice the tokens and one bin a group.
  ghost predicate Within(length: nat, groupSize: nat, ds: seq<Sample>, next: nat, bins: seq<Bin>)
    requires next <= |ds|
  {
    |bins| * length + Groups(length, groupSize, ds, next) * length <= 2 * Load(bins) + Groups(length, groupSize, ds, 0) * length
  }

  lemma WithinStep(length: nat, groupSize: nat, ds: seq<Sample>, next: nat, bins: seq<Bin>, added: seq<Bin>)
    requires next <= |ds| && Within(length, groupSize, ds, next, bins) && Crowded(length, added)
    requires Kept(length, ds[next..GroupEnd(ds, groupSize, next)]) != []
    ensures Within(length, groupSize, ds, GroupEnd(ds, groupSize, next), bins + added)
  {
    GroupCost(length, bins, added);
    OneMore(Groups(length, groupSize, ds, GroupEnd(ds, groupSize, next)), length);
  }

  lemma Distribute(a: nat, b: nat, d: nat)
    ensures (a + b) * d == a * d + (b - 1) * d + d
  {
  }

  // What has been packed and what is still to be read, without a limit on packs.
  ghost predicate Progress(length: nat, groupSize: nat, ds: seq<Sample>, next: nat, bins: seq<Bin>, dropped: nat)
    requires next <= |ds|
  {
    && Contents(bins) + multiset(Reached(length, groupSize, ds, next)) == multiset(Reached(length, groupSize, ds, 0))
    && dropped + |Reached(length, groupSize, ds, 0)| == next + |Reached(length, groupSize, ds, next)|
    && Seen(length, groupSize, ds, next) == Seen(length, groupSize, ds, 0)
  }

  ghost predicate Finished(length: nat, groupSize: nat, ds: seq<Sample>, bins: seq<Bin>, dropped: nat)
  {
    && Contents(bins) == multiset(Reached(length, groupSize, ds, 0))
    && dropped + |Reached(length, groupSize, ds, 0)| == Seen(length, groupSize, ds, 0)
  }

  lemma ProgressStep(length: nat, groupSize: nat, ds: seq<Sample>, next: nat, bins: seq<Bin>, dropped: nat,
                     added: seq<Bin>, dropped': nat)
    requires next <= |ds| && Progress(length, groupSize, ds, next, bins, dropped)
    requires var e := GroupEnd(ds, groupSize, next);
      var group := Kept(length, ds[next..e]);
      group != [] && Contents(added) == multiset(group) && dropped' == dropped + (e - next) - |group|
    ensures Progress(length, groupSize, ds, GroupEnd(ds, groupSize, next), bins + added, dropped')
  {
    var e := GroupEnd(ds, groupSize, next);
    var group, rest := Kept(length, ds[next..e]), Reached(length, groupSize, ds, e);
    assert Reached(length, groupSize, ds, next) == group + rest;
    ContentsAppend(bins, added);
    SumsAssociate(Contents(bins), multiset(group), multiset(rest));
  }

  lemma ProgressEnd(length: nat, groupSize: nat, ds: seq<Sample>, next: nat, bins: seq<Bin>, dropped: nat, dropped': nat)
    requires next <= |ds| && Progress(length, groupSize, ds, next, bins, dropped)
    requires var e := GroupEnd(ds, groupSize, next);
      Kept(length, ds[next..e]) == [] && dropped' == dropped + (e - next)
    ensures Finished(length, groupSize, ds, bins, dropped')
  {
    assert Reached(length, groupSize, ds, next) == [];
  }

  lemma PackingStarts(length: nat, groupSize: nat, ds: seq<Sample>)
    ensures Progress(length, groupSize, ds, 0, [], 0) && Within(length, groupSize, ds, 0, [])
  {
  }

  lemma PackingEnds(length: nat, groupSize: nat, ds: seq<Sample>, bins: seq<Bin>, dropped: nat)
    requires Progress(length, groupSize, ds, |ds|, bins, dropped)
    ensures Finished(length, groupSize, ds, bins, dropped)
  {
    ProgressEnd(length, groupSize, ds, |ds|, bins, dropped, dropped);
  }

  lemma WithinTotal(length: nat, groupSize: nat, ds: seq<Sample>, next: nat, bins: seq<Bin>)
    requires next <= |ds| && Within(length, groupSize, ds, next, bins)
    ensures |bins| * length <= 2 * Load(bins) + Groups(length, groupSize, ds, 0) * length
  {
    assert Groups(length, groupSize, ds, next) * length >= 0;
  }

  lemma NoneWithHalf(length: nat, group: seq<Sample>, bins: seq<Bin>)
    requires group != [] && Crowded(length, bins) && Contents(bins) == multiset(group)
    ensures forall others :: Measured(length, others) && Contents(others) == multiset(group) ==> |bins| < 2 * |others|
  {
    assert group[0] in multiset(group);
    forall others | Measured(length, others) && Contents(others) == multiset(group)
      ensures |bins| < 2 * |others|
    {
      WithinTwiceTheOptimum(length, bins, others);
    }
  }

  class PackedDataset {
    const length: nat
    const padding: int
    const maxPacks: Option<nat>
    const groupSize: nat
    var packs: seq<Pack>
    var packedTokens: nat
    var totalTokens: nat
    var dropped: nat
    // The bins the packs were made from.
    ghost var emitted: seq<Bin>

    ghost predicate Valid()
      reads this
    {
      && Matches(length, padding, packs, emitted)
      && packedTokens == Load(emitted)
      && totalTokens == |packs| * length
    }

    constructor (length: nat, padding: int, maxPacks: Option<nat>, groupSize: nat)
      ensures Valid() && packs == [] && dropped == 0
      ensures this.length == length && this.padding == padding && this.maxPacks == maxPacks && this.groupSize == groupSize
    {
      this.length, this.padding, this.maxPacks, this.groupSize := length, padding, maxPacks, groupSize;
      packs, packedTokens, totalTokens, dropped, emitted := [], 0, 0, 0, [];
    }

    predicate ShouldStop()
      reads this
    {
      maxPacks.Some? && |packs| == maxPacks.value
    }

    /** Pad the pack and add it. */
    method AddPack(pack: Pack, ghost bin: Bin)
      requires Valid() && Tokens(bin.samples) + bin.space == length && bin.space >= 0 && pack == Joined(bin.samples)
      modifies this
      ensures Valid() && emitted == old(emitted) + [bin] && dropped == old(dropped)
    {
      PackIsFull(length, padding, bin.samples);
      JoinedSizes(bin.samples);
      packedTokens := packedTokens + |pack.inputs|;
      totalTokens := totalTokens + length;
      packs := packs + [Padded(length, padding, pack)];
      MatchesPush(length, padding, old(packs), emitted, bin);
      ContentsPush(emitted, bin);
      OneMore(|emitted|, length);
      emitted := emitted + [bin];
    }

    /** Lay the samples of a bin end to end and add the pack. */
    method EmitBin(samples: seq<Sample>, ghost space: int)
      requires Valid() && Tokens(samples) + space == length && space >= 0
      modifies this
      ensures Valid() && emitted == old(emitted) + [Bin(samples, space)] && dropped == old(dropped)
    {
      var pack := EMPTY_PACK;
      for i := 0 to |samples|
        invariant pack == Joined(samples[..i])
      {
        assert samples[..i + 1][..i] == samples[..i];
        pack := AppendSample(pack, samples[i]);
      }
      assert samples[..|samples|] == samples;
      AddPack(pack, Bin(samples, space));
    }

    /** Turn bins into packs until the limit is reached; random-fit also shuffles the samples of each. */
    method EmitBins(bins: seq<Bin>, shuffle: bool) returns (ghost added: seq<Bin>)
      requires Valid() && Measured(length, bins)
      modifies this
      ensures Valid() && emitted == old(emitted) + added && dropped == old(dropped)
      ensures |added| <= |bins| && Rearranged(bins[..|added|], added)
      ensures |added| < |bins| ==> ShouldStop()
      ensures maxPacks.Some? && |old(packs)| <= maxPacks.value ==> |packs| <= maxPacks.value
    {
      added := [];
      var i := 0;
      while i < |bins| && !ShouldStop()
        invariant i <= |bins| && |added| == i && Rearranged(bins[..i], added)
        invariant Valid() && emitted == old(emitted) + added && dropped == old(dropped)
        invariant maxPacks.Some? && |old(packs)| <= maxPacks.value ==> |packs| <= maxPacks.value
      {
        var samples := bins[i].samples;
        if shuffle {
          samples := RandomShuffle(samples);
        }
        TokensPermuted(bins[i].samples, samples);
        EmitBin(samples, bins[i].space);
        RearrangedPush(bins, i, added, Bin(samples, bins[i].space));
        added := added + [Bin(samples, bins[i].space)];
        i := i + 1;
      }
    }

    /** Read up to groupSize samples and keep those that fit. */
    method FetchGroup(ds: seq<Sample>, start: nat) returns (group: seq<Sample>, next: nat, finished: bool)
      requires start <= |ds|
      modifies this`dropped
      ensures next == GroupEnd(ds, groupSize, start) && group == Kept(length, ds[start..next])
      ensures dropped == old(dropped) + (next - start) - |group|
      ensures finished ==> next == |ds|
    {
      group, next, finished := [], start, false;
      var read := 0;
      while read < groupSize && !finished
        invariant read <= groupSize && start <= next == start + read <= |ds|
        invariant finished ==> next == |ds|
        invariant group == Kept(length, ds[start..next]) && dropped == old(dropped) + read - |group|
        decreases groupSize - read, !finished
      {
        if next == |ds| {
          finished := true;
        } else {
          KeptNext(length, ds, start, next);
          if |ds[next].inputs| > length {
            dropped := dropped + 1;
          } else {
            group := group + [ds[next]];
          }
          next, read := next + 1, read + 1;
        }
      }
    }

    /** Put one group into bins. */
    method PackBins(group: seq<Sample>, ffd: bool) returns (bins: seq<Bin>)
      requires forall s :: s in group ==> |s.inputs| <= length
      ensures Measured(length, bins) && Crowded(length, bins) && Contents(bins) == multiset(group)
    {
      if ffd {
        var sorted := SortByLength(group);
        SortIsSorted(group);
        SameMembers(group, sorted);
        bins := FirstFitGroup(length, sorted);
      } else {
        var fitted := RandomFitGroup(length, group);
        bins := RandomShuffle(fitted);
        CrowdedPermuted(length, fitted, bins);
        ContentsPermuted(fitted, bins);
        MeasuredPermuted(length, fitted, bins);
      }
    }

    /** Pack one group and emit its bins. */
    method PackGroup(group: seq<Sample>, ffd: bool) returns (ghost added: seq<Bin>)
      requires Valid() && forall s :: s in group ==> |s.inputs| <= length
      modifies this
      ensures Valid() && emitted == old(emitted) + added && dropped == old(dropped)
      ensures Crowded(length, added) && (maxPacks.None? ==> Contents(added) == multiset(group))
      ensures maxPacks.None? && group != [] ==> forall others ::
        Measured(length, others) && Contents(others) == multiset(group) ==> |added| < 2 * |others|
      ensures maxPacks.Some? && |old(packs)| <= maxPacks.value ==> |packs| <= maxPacks.value
    {
      var bins := PackBins(group, ffd);
      added := EmitBins(bins, !ffd);
      assert |added| == |bins| ==> bins[..|added|] == bins;
      RearrangedSame(length, bins[..|added|], added);
      if maxPacks.None? && group != [] {
        NoneWithHalf(length, group, added);
      }
    }

    // What holds between groups: with no limit on packs everything read is packed, with one it is kept.
    ghost predicate Packing(ds: seq<Sample>, next: nat, done: bool)
      requires next <= |ds|
      reads this
    {
      && Valid()
      && (maxPacks.None? && !done ==> Progress(length, groupSize, ds, next, emitted, dropped))
      && (maxPacks.None? && done ==> Finished(length, groupSize, ds, emitted, dropped))
      && (maxPacks.Some? ==> |packs| <= maxPacks.value)
      && Within(length, groupSize, ds, next, emitted)
    }

    /** Read and pack the next group; done when nothing in it fits or the limit is reached. */
    method PackNext(ds: seq<Sample>, next: nat, ffd: bool) returns (e: nat, finished: bool, done: bool)
      requires next <= |ds| && Packing(ds, next, false)
      modifies this
      ensures next <= e <= |ds| && (finished ==> e == |ds|) && (done || next < e)
      ensures Packing(ds, e, done)
    {
      ghost var before, was := emitted, dropped;
      var group;
      group, e, finished := FetchGroup(ds, next);
      if group == [] {
        if maxPacks.None? {
          ProgressEnd(length, groupSize, ds, next, before, was, dropped);
        }
        return next, false, true;
      }
      ghost var added := PackGroup(group, ffd);
      WithinStep(length, groupSize, ds, next, before, added);
      if maxPacks.None? {
        ProgressStep(length, groupSize, ds, next, before, was, added, dropped);
      }
      done := ShouldStop();
    }

    /** Read the dataset group by group and pack each. */
    method PackAll(ds: seq<Sample>, ffd: bool)
      requires Valid() && packs == [] && dropped == 0
      modifies this
      ensures Valid()
      ensures maxPacks.None? ==> Finished(length, groupSize, ds, emitted, dropped)
      ensures maxPacks.Some? ==> |packs| <= maxPacks.value
      ensures totalTokens <= 2 * packedTokens + Groups(length, groupSize, ds, 0) * length
    {
      PackingStarts(length, groupSize, ds);
      var next: nat, finished, done := 0, false, false;
      while !finished && !done
        invariant next <= |ds| && (finished ==> next == |ds|) && Packing(ds, next, done)
        decreases !finished, !done, |ds| - next
      {
        next, finished, done := PackNext(ds, next, ffd);
      }
      WithinTotal(length, groupSize, ds, next, emitted);
      if maxPacks.None? && !done {
        PackingEnds(length, groupSize, ds, emitted, dropped);
      }
    }
  }
}
