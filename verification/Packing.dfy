/** Bin packing of token sequences: the any-fit rule, and the fixed-length packs made from the bins. */
module Packing {

  datatype Sample = Sample(inputs: seq<int>, labels: seq<int>)

  // The samples put in a bin and the space it has left.
  datatype Bin = Bin(samples: seq<Sample>, space: int)

  function Tokens(samples: seq<Sample>): (n: nat)
  {
    if samples == [] then 0 else Tokens(samples[..|samples| - 1]) + |samples[|samples| - 1].inputs|
  }

  lemma TokensPush(samples: seq<Sample>, s: Sample)
    ensures Tokens(samples + [s]) == Tokens(samples) + |s.inputs|
  {
    assert (samples + [s])[..|samples|] == samples;
  }

  // ------------------------------------------------------------------ placing one sample

  // The first bin with room for n tokens, or the number of bins.
  function FirstFit(bins: seq<Bin>, n: nat): (k: nat)
    ensures k <= |bins| && (k < |bins| ==> bins[k].space >= n)
    ensures forall i :: 0 <= i < k ==> bins[i].space < n
  {
    if bins == [] then 0
    else
      var k := FirstFit(bins[..|bins| - 1], n);
      if k < |bins| - 1 || bins[|bins| - 1].space >= n then k else |bins|
  }

  // The bins after s goes into bin k, or into a new bin when k is past the last.
  function Place(length: nat, bins: seq<Bin>, k: nat, s: Sample): (r: seq<Bin>)
    requires k <= |bins|
  {
    if k < |bins| then bins[k := Bin(bins[k].samples + [s], bins[k].space - |s.inputs|)]
    else bins + [Bin([s], length - |s.inputs|)]
  }

  // Any-fit: s goes into some bin with room for it, and a new bin is opened only when there is none.
  predicate AnyFit(bins: seq<Bin>, k: nat, s: Sample)
  {
    && k <= |bins|
    && (k < |bins| ==> bins[k].space >= |s.inputs|)
    && (k == |bins| ==> forall i :: 0 <= i < |bins| ==> bins[i].space < |s.inputs|)
  }

  function FirstFitAll(length: nat, items: seq<Sample>): (bins: seq<Bin>)
  {
    if items == [] then []
    else
      var (bins, s) := (FirstFitAll(length, items[..|items| - 1]), items[|items| - 1]);
      Place(length, bins, FirstFit(bins, |s.inputs|), s)
  }

  // ------------------------------------------------------------------ what every packing keeps

  function Contents(bins: seq<Bin>): (m: multiset<Sample>)
  {
    if bins == [] then multiset{} else Contents(bins[..|bins| - 1]) + multiset(bins[|bins| - 1].samples)
  }

  function Load(bins: seq<Bin>): (n: nat)
  {
    if bins == [] then 0 else Load(bins[..|bins| - 1]) + Tokens(bins[|bins| - 1].samples)
  }

  // The space left is what the samples leave of the length.
  ghost predicate Measured(length: nat, bins: seq<Bin>)
  {
    forall i :: 0 <= i < |bins| ==> 0 <= bins[i].space && Tokens(bins[i].samples) + bins[i].space == length
  }

  // No two bins would fit in one.
  ghost predicate Crowded(length: nat, bins: seq<Bin>)
  {
    forall i, j :: 0 <= i < j < |bins| ==> Tokens(bins[i].samples) + Tokens(bins[j].samples) > length
  }

  ghost predicate IsPacking(length: nat, items: seq<Sample>, bins: seq<Bin>)
  {
    Measured(length, bins) && Crowded(length, bins) && Contents(bins) == multiset(items) && Load(bins) == Tokens(items)
  }

  lemma {:induction false} PlaceContents(length: nat, bins: seq<Bin>, k: nat, s: Sample)
    requires k <= |bins|
    ensures Contents(Place(length, bins, k, s)) == Contents(bins) + multiset{s}
    decreases |bins|
  {
    var after, last := Place(length, bins, k, s), |bins| - 1;
    if k == |bins| {
      assert after[..|bins|] == bins;
    } else if k == last {
      assert after[..last] == bins[..last];
    } else {
      PlaceContents(length, bins[..last], k, s);
      assert after[..last] == Place(length, bins[..last], k, s);
    }
  }

  lemma {:induction false} PlaceLoad(length: nat, bins: seq<Bin>, k: nat, s: Sample)
    requires k <= |bins|
    ensures Load(Place(length, bins, k, s)) == Load(bins) + |s.inputs|
    decreases |bins|
  {
    var after, last := Place(length, bins, k, s), |bins| - 1;
    if k == |bins| {
      assert after[..|bins|] == bins;
      TokensOfOne(s);
    } else if k == last {
      assert after[..last] == bins[..last];
      TokensPush(bins[k].samples, s);
    } else {
      PlaceLoad(length, bins[..last], k, s);
      assert after[..last] == Place(length, bins[..last], k, s);
    }
  }

  lemma TokensOfOne(s: Sample)
    ensures Tokens([s]) == |s.inputs|
  {
    assert [] + [s] == [s];
    TokensPush([], s);
  }

  lemma PlaceMeasured(length: nat, bins: seq<Bin>, k: nat, s: Sample)
    requires Measured(length, bins) && AnyFit(bins, k, s) && |s.inputs| <= length
    ensures Measured(length, Place(length, bins, k, s))
    ensures forall i :: 0 <= i < |bins| ==>
      Tokens(Place(length, bins, k, s)[i].samples) == Tokens(bins[i].samples) + if i == k then |s.inputs| else 0
  {
    if k < |bins| {
      TokensPush(bins[k].samples, s);
    } else {
      TokensOfOne(s);
    }
  }

  lemma PlaceCrowded(length: nat, bins: seq<Bin>, k: nat, s: Sample)
    requires Measured(length, bins) && Crowded(length, bins) && AnyFit(bins, k, s) && |s.inputs| <= length
    ensures Crowded(length, Place(length, bins, k, s))
  {
    PlaceMeasured(length, bins, k, s);
    var after := Place(length, bins, k, s);
    forall i, j | 0 <= i < j < |after|
      ensures Tokens(after[i].samples) + Tokens(after[j].samples) > length
    {
      if j == |bins| {
        assert after[i] == bins[i] && after[j].space == length - |s.inputs|;
      } else {
        assert Tokens(bins[i].samples) + Tokens(bins[j].samples) > length;
      }
    }
  }

  // Placing one more sample by any-fit keeps the packing.
  lemma AnyFitKeepsPacking(length: nat, items: seq<Sample>, bins: seq<Bin>, k: nat, s: Sample)
    requires IsPacking(length, items, bins) && AnyFit(bins, k, s) && |s.inputs| <= length
    ensures IsPacking(length, items + [s], Place(length, bins, k, s))
  {
    PlaceMeasured(length, bins, k, s);
    PlaceCrowded(length, bins, k, s);
    PlaceContents(length, bins, k, s);
    PlaceLoad(length, bins, k, s);
    TokensPush(items, s);
    assert multiset(items + [s]) == multiset(items) + multiset{s};
  }

  lemma {:induction false} FirstFitIsPacking(length: nat, items: seq<Sample>)
    requires forall s :: s in items ==> |s.inputs| <= length
    ensures IsPacking(length, items, FirstFitAll(length, items))
  {
    if items != [] {
      var front, s := items[..|items| - 1], items[|items| - 1];
      FirstFitIsPacking(length, front);
      var bins := FirstFitAll(length, front);
      AnyFitKeepsPacking(length, front, bins, FirstFit(bins, |s.inputs|), s);
      assert items == front + [s];
    }
  }

  // Longest first.
  ghost predicate Decreasing(s: seq<Sample>)
  {
    forall i, j :: 0 <= i < j < |s| ==> |s[i].inputs| >= |s[j].inputs|
  }

  ghost predicate AllAtLeast(bins: seq<Bin>, n: nat)
  {
    forall k, i :: 0 <= k < |bins| && 0 <= i < |bins[k].samples| ==> |bins[k].samples[i].inputs| >= n
  }

  // Every bin takes its samples in the order in which they are offered: a group offered longest first fills every
  // bin longest first, and its first sample opens the first bin.
  lemma {:induction false} FirstFitKeepsOrder(length: nat, items: seq<Sample>)
    requires Decreasing(items) && items != []
    ensures var bins := FirstFitAll(length, items);
      && AllAtLeast(bins, |items[|items| - 1].inputs|)
      && (forall k :: 0 <= k < |bins| ==> Decreasing(bins[k].samples))
      && bins != [] && bins[0].samples != [] && bins[0].samples[0] == items[0]
  {
    var front, s := items[..|items| - 1], items[|items| - 1];
    var bins := FirstFitAll(length, front);
    if front != [] {
      FirstFitKeepsOrder(length, front);
    }
    PlaceKeepsOrder(length, bins, FirstFit(bins, |s.inputs|), s);
  }

  lemma PlaceKeepsOrder(length: nat, bins: seq<Bin>, k: nat, s: Sample)
    requires k <= |bins| && AllAtLeast(bins, |s.inputs|)
    requires forall i :: 0 <= i < |bins| ==> Decreasing(bins[i].samples)
    ensures AllAtLeast(Place(length, bins, k, s), |s.inputs|)
    ensures forall i :: 0 <= i < |Place(length, bins, k, s)| ==> Decreasing(Place(length, bins, k, s)[i].samples)
    ensures bins != [] && bins[0].samples != [] ==>
      var after := Place(length, bins, k, s);
      after != [] && after[0].samples != [] && after[0].samples[0] == bins[0].samples[0]
  {
  }

  // ------------------------------------------------------------------ how many bins

  lemma ThreeFill(length: nat, bins: seq<Bin>)
    requires Crowded(length, bins) && |bins| == 3
    ensures 3 * (length + 1) <= 2 * Load(bins)
  {
    var two, one := bins[..2], bins[..1];
    assert two[..1] == one && one[..0] == [];
    assert Load(one) == Tokens(bins[0].samples) && Load(two) == Load(one) + Tokens(bins[1].samples);
    assert Load(bins) == Load(two) + Tokens(bins[2].samples);
  }

  lemma TwoFewer(length: nat, bins: seq<Bin>)
    requires Crowded(length, bins) && |bins| >= 2
    ensures Load(bins) >= Load(bins[..|bins| - 2]) + length + 1
  {
    var n := |bins|;
    assert bins[..n - 1][..n - 2] == bins[..n - 2];
    assert Load(bins) == Load(bins[..n - 2]) + Tokens(bins[n - 2].samples) + Tokens(bins[n - 1].samples);
  }

  lemma TwoMore(n: nat, d: nat)
    requires n >= 2
    ensures n * d == (n - 2) * d + 2 * d
  {
  }

  // Going round, every bin and the next hold more than one length.
  lemma {:induction false} PairsFill(length: nat, bins: seq<Bin>)
    requires Crowded(length, bins) && |bins| >= 2
    ensures |bins| * (length + 1) <= 2 * Load(bins)
    decreases |bins|
  {
    if |bins| == 3 {
      ThreeFill(length, bins);
    } else {
      TwoFewer(length, bins);
      if |bins| > 3 {
        PairsFill(length, bins[..|bins| - 2]);
        TwoMore(|bins|, length + 1);
      }
    }
  }

  // Two bins or more are at most twice what the tokens need, rounded down.
  lemma BinsAreBounded(length: nat, items: seq<Sample>, bins: seq<Bin>)
    requires IsPacking(length, items, bins)
    ensures |bins| >= 2 ==> |bins| * (length + 1) <= 2 * Tokens(items)
  {
    if |bins| >= 2 {
      PairsFill(length, bins);
    }
  }

  // ------------------------------------------------------------------ packs

  datatype Pack = Pack(inputs: seq<int>, labels: seq<int>, positions: seq<int>, lengths: seq<nat>)

  const EMPTY_PACK := Pack([], [], [], [])
  const IGNORED_LABEL: int := -100

  function Sum(ns: seq<nat>): (n: nat)
  {
    if ns == [] then 0 else Sum(ns[..|ns| - 1]) + ns[|ns| - 1]
  }

  lemma SumPush(ns: seq<nat>, n: nat)
    ensures Sum(ns + [n]) == Sum(ns) + n
  {
    assert (ns + [n])[..|ns|] == ns;
  }

  // from, from + 1, ..., from + n - 1
  function CountFrom(from: int, n: nat): (r: seq<int>)
    ensures |r| == n
  {
    seq(n, i => from + i)
  }

  function AppendSample(p: Pack, s: Sample): (r: Pack)
  {
    Pack(p.inputs + s.inputs, p.labels + s.labels, p.positions + CountFrom(0, |s.inputs|), p.lengths + [|s.inputs|])
  }

  function Joined(samples: seq<Sample>): (p: Pack)
  {
    if samples == [] then EMPTY_PACK else AppendSample(Joined(samples[..|samples| - 1]), samples[|samples| - 1])
  }

  function PadWith(front: seq<int>, missing: nat, value: int): (r: seq<int>)
    ensures |r| == |front| + missing
  {
    front + seq(missing, _ => value)
  }

  // Position ids of the padding, counted on from the last one.
  function CountOn(front: seq<int>, missing: nat): (r: seq<int>)
    ensures |r| == |front| + missing
  {
    if missing > 0 then front + CountFrom(if front != [] then front[|front| - 1] + 1 else 0, missing) else front
  }

  function Padded(length: nat, padding: int, p: Pack): (r: Pack)
    requires |p.inputs| <= length && |p.positions| == |p.inputs|
  {
    var missing := length - |p.inputs|;
    Pack(
      PadWith(p.inputs, missing, padding),
      PadWith(p.labels, missing, IGNORED_LABEL),
      CountOn(p.positions, missing),
      if missing > 0 then p.lengths + [missing] else p.lengths)
  }

  lemma {:induction false} JoinedSizes(samples: seq<Sample>)
    ensures var p := Joined(samples);
      |p.inputs| == |p.positions| == Sum(p.lengths) == Tokens(samples)
    ensures (forall s :: s in samples ==> |s.labels| == |s.inputs|) ==> |Joined(samples).labels| == Tokens(samples)
  {
    if samples != [] {
      var front, s := samples[..|samples| - 1], samples[|samples| - 1];
      JoinedSizes(front);
      SumPush(Joined(front).lengths, |s.inputs|);
    }
  }

  // A pack has exactly length inputs and position ids and its sequence lengths add up to length; its labels
  // do too when the labels of the samples are as long as their inputs.
  lemma PackIsFull(length: nat, padding: int, samples: seq<Sample>)
    requires Tokens(samples) <= length
    ensures |Joined(samples).inputs| == |Joined(samples).positions| <= length
    ensures var p := Padded(length, padding, Joined(samples));
      |p.inputs| == |p.positions| == Sum(p.lengths) == length
    ensures (forall s :: s in samples ==> |s.labels| == |s.inputs|) ==>
      |Padded(length, padding, Joined(samples)).labels| == length
  {
    JoinedSizes(samples);
    SumPush(Joined(samples).lengths, length - Tokens(samples));
  }

  lemma {:induction false} JoinedLengths(samples: seq<Sample>)
    ensures |Joined(samples).lengths| == |samples|
    ensures forall i :: 0 <= i < |samples| ==> Joined(samples).lengths[i] == |samples[i].inputs|
  {
    if samples != [] {
      JoinedLengths(samples[..|samples| - 1]);
    }
  }

  // The sequence lengths of a pack are those of its samples in order, then that of the padding if there is any.
  lemma PackLengths(length: nat, padding: int, samples: seq<Sample>)
    requires Tokens(samples) <= length
    ensures |Joined(samples).inputs| == |Joined(samples).positions| <= length
    ensures var lengths := Padded(length, padding, Joined(samples)).lengths;
      && |lengths| == |samples| + (if Tokens(samples) < length then 1 else 0)
      && (forall i :: 0 <= i < |samples| ==> lengths[i] == |samples[i].inputs|)
      && (Tokens(samples) < length ==> lengths[|samples|] == length - Tokens(samples))
  {
    JoinedSizes(samples);
    JoinedLengths(samples);
  }

  // After the samples come padding and ignored labels.
  lemma PaddingFollows(length: nat, padding: int, samples: seq<Sample>, i: nat)
    requires Tokens(samples) <= i < length
    requires forall s :: s in samples ==> |s.labels| == |s.inputs|
    ensures |Joined(samples).inputs| == |Joined(samples).positions| == Tokens(samples)
    ensures var (p, q, n) := (Joined(samples), Padded(length, padding, Joined(samples)), Tokens(samples));
      && |q.inputs| == |q.labels| == length
      && q.inputs[..n] == p.inputs && q.labels[..n] == p.labels
      && q.inputs[i] == padding && q.labels[i] == -100
  {
    JoinedSizes(samples);
    var (p, q, n) := (Joined(samples), Padded(length, padding, Joined(samples)), Tokens(samples));
    Filled(p.inputs, length - n, padding, i);
    Filled(p.labels, length - n, IGNORED_LABEL, i);
  }

  lemma Filled(front: seq<int>, missing: nat, value: int, i: nat)
    requires |front| <= i < |front| + missing
    ensures PadWith(front, missing, value)[..|front|] == front && PadWith(front, missing, value)[i] == value
  {
  }

  // Position ids count on from the last sample.
  lemma PositionsCountOn(length: nat, padding: int, samples: seq<Sample>, i: nat)
    requires Tokens(samples) <= i < length
    ensures |Joined(samples).inputs| == |Joined(samples).positions| == Tokens(samples)
    ensures var (p, q) := (Joined(samples).positions, Padded(length, padding, Joined(samples)).positions);
      && |q| == length && q[..|p|] == p
      && q[i] == if i == 0 then 0 else q[i - 1] + 1
  {
    JoinedSizes(samples);
    CountedOn(Joined(samples).positions, length - Tokens(samples), i);
  }

  lemma CountedOn(front: seq<int>, missing: nat, i: nat)
    requires |front| <= i < |front| + missing
    ensures CountOn(front, missing)[..|front|] == front
    ensures CountOn(front, missing)[i] == if i == 0 then 0 else CountOn(front, missing)[i - 1] + 1
  {
  }

  // Lists laid end to end.
  function Cat<T>(parts: seq<seq<T>>): (r: seq<T>)
  {
    if parts == [] then [] else Cat(parts[..|parts| - 1]) + parts[|parts| - 1]
  }

  lemma {:induction false} PartIsInCat<T>(parts: seq<seq<T>>, k: nat)
    requires k < |parts|
    ensures var at := |Cat(parts[..k])|;
      at + |parts[k]| <= |Cat(parts)| && Cat(parts)[at..at + |parts[k]|] == parts[k]
    decreases |parts|
  {
    var front, last := parts[..|parts| - 1], parts[|parts| - 1];
    if k < |front| {
      PartIsInCat(front, k);
      assert front[..k] == parts[..k];
      var at := |Cat(parts[..k])|;
      SliceOfFront(Cat(front), last, at, at + |parts[k]|);
    }
  }

  lemma SliceOfFront<T>(a: seq<T>, b: seq<T>, from: nat, to: nat)
    requires from <= to <= |a|
    ensures (a + b)[from..to] == a[from..to]
  {
  }

  function Inputs(samples: seq<Sample>): (r: seq<seq<int>>)
    ensures |r| == |samples| && forall i :: 0 <= i < |r| ==> r[i] == samples[i].inputs
  {
    seq(|samples|, i requires 0 <= i < |samples| => samples[i].inputs)
  }

  function Labels(samples: seq<Sample>): (r: seq<seq<int>>)
    ensures |r| == |samples| && forall i :: 0 <= i < |r| ==> r[i] == samples[i].labels
  {
    seq(|samples|, i requires 0 <= i < |samples| => samples[i].labels)
  }

  // 0, 1, 2, ... for each sample.
  function Positions(samples: seq<Sample>): (r: seq<seq<int>>)
    ensures |r| == |samples| && forall i :: 0 <= i < |r| ==> r[i] == CountFrom(0, |samples[i].inputs|)
  {
    seq(|samples|, i requires 0 <= i < |samples| => CountFrom(0, |samples[i].inputs|))
  }

  lemma CatOfFront<T>(parts: seq<seq<T>>, front: seq<seq<T>>, last: seq<T>)
    requires parts == front + [last]
    ensures Cat(parts) == Cat(front) + last
  {
    assert parts[..|parts| - 1] == front;
  }

  // A pack holds its samples end to end, with positions counted from zero in each.
  lemma {:induction false} JoinedIsCat(samples: seq<Sample>)
    ensures Joined(samples).inputs == Cat(Inputs(samples)) && Joined(samples).labels == Cat(Labels(samples))
    ensures Joined(samples).positions == Cat(Positions(samples))
  {
    if samples != [] {
      var front, s := samples[..|samples| - 1], samples[|samples| - 1];
      JoinedIsCat(front);
      CatOfFront(Inputs(samples), Inputs(front), s.inputs);
      CatOfFront(Labels(samples), Labels(front), s.labels);
      CatOfFront(Positions(samples), Positions(front), CountFrom(0, |s.inputs|));
    }
  }

  // Sample k is in the pack, from where the tokens before it end.
  lemma SampleIsInPack(samples: seq<Sample>, k: nat)
    requires k < |samples|
    ensures var p, at, n := Joined(samples), Tokens(samples[..k]), |samples[k].inputs|;
      at + n <= |p.inputs| && p.inputs[at..at + n] == samples[k].inputs
  {
    JoinedIsCat(samples);
    JoinedIsCat(samples[..k]);
    JoinedSizes(samples[..k]);
    assert Inputs(samples)[..k] == Inputs(samples[..k]);
    PartIsInCat(Inputs(samples), k);
  }

  lemma PositionsRestart(samples: seq<Sample>, k: nat)
    requires k < |samples|
    ensures var p, at, n := Joined(samples), Tokens(samples[..k]), |samples[k].inputs|;
      at + n <= |p.positions| && p.positions[at..at + n] == CountFrom(0, n)
  {
    JoinedIsCat(samples);
    JoinedIsCat(samples[..k]);
    JoinedSizes(samples[..k]);
    assert Positions(samples)[..k] == Positions(samples[..k]);
    PartIsInCat(Positions(samples), k);
  }

  // Its labels are there as well when labels are as long as inputs.
  lemma LabelsAreInPack(samples: seq<Sample>, k: nat)
    requires k < |samples| && forall s :: s in samples ==> |s.labels| == |s.inputs|
    ensures var p, at, n := Joined(samples), Tokens(samples[..k]), |samples[k].inputs|;
      at + n <= |p.labels| && p.labels[at..at + n] == samples[k].labels
  {
    JoinedIsCat(samples);
    JoinedIsCat(samples[..k]);
    JoinedSizes(samples[..k]);
    assert Labels(samples)[..k] == Labels(samples[..k]);
    PartIsInCat(Labels(samples), k);
  }
}
