/** The deterministic Fisher-Yates shuffle and the linear congruential generator that drives it. */
module DeterministicShuffle {
  import opened Hashing
  import opened Sequences

  const LCG_A := 6364136223846793005
  const LCG_C := 1442695040888963407

  // One step of the generator, wrapping at 64 bits.
  function LcgNext(state: nat): (r: nat)
    ensures r < U64
  {
    (state * LCG_A % U64 + LCG_C) % U64
  }

  class Lcg {
    var state: nat

    constructor (seed: nat)
      ensures state == seed
    {
      state := seed;
    }

    method NextRange(max: nat) returns (r: nat)
      requires max > 0
      modifies this
      ensures state == LcgNext(old(state)) && r == state % max && r < max
    {
      state := LcgNext(state);
      r := state % max;
    }
  }

  function Swapped<T>(s: seq<T>, i: nat, j: nat): (r: seq<T>)
    requires i < |s| && j < |s|
    ensures |r| == |s|
  {
    s[i := s[j]][j := s[i]]
  }

  // Positions i, i-1, .., 1 still have to draw their partner.
  function ShuffledFrom<T>(s: seq<T>, i: nat, state: nat): (r: seq<T>)
    requires i == 0 || i < |s|
    ensures |r| == |s|
    decreases i
  {
    if i == 0 then s
    else
      var next := LcgNext(state);
      ShuffledFrom(Swapped(s, i, next % (i + 1)), i - 1, next)
  }

  function Shuffled<T>(s: seq<T>, seed: nat): (r: seq<T>)
    ensures |r| == |s|
  {
    ShuffledFrom(s, if |s| == 0 then 0 else |s| - 1, seed)
  }

  method Shuffle<T>(items: array<T>, seed: nat)
    modifies items
    ensures items[..] == Shuffled(old(items[..]), seed)
  {
    var rng := new Lcg(seed);
    if items.Length == 0 {
      return;
    }
    var i: nat := items.Length - 1;
    while i > 0
      invariant 0 <= i < items.Length
      invariant ShuffledFrom(items[..], i, rng.state) == Shuffled(old(items[..]), seed)
    {
      ghost var before, state := items[..], rng.state;
      var j := rng.NextRange(i + 1);
      items[i], items[j] := items[j], items[i];
      assert items[..] == Swapped(before, i, j);
      i := i - 1;
    }
  }

  lemma SwapIsPermutation<T>(s: seq<T>, i: nat, j: nat)
    requires i < |s| && j < |s|
    ensures multiset(Swapped(s, i, j)) == multiset(s)
  {
  }

  // Nothing is lost and nothing is duplicated, whatever the seed.
  lemma {:induction false} ShuffledFromIsPermutation<T>(s: seq<T>, i: nat, state: nat)
    requires i == 0 || i < |s|
    ensures multiset(ShuffledFrom(s, i, state)) == multiset(s)
    decreases i
  {
    if i > 0 {
      var next := LcgNext(state);
      var j := next % (i + 1);
      SwapIsPermutation(s, i, j);
      ShuffledFromIsPermutation(Swapped(s, i, j), i - 1, next);
    }
  }

  lemma ShuffleIsPermutation<T>(s: seq<T>, seed: nat)
    ensures multiset(Shuffled(s, seed)) == multiset(s)
  {
    ShuffledFromIsPermutation(s, if |s| == 0 then 0 else |s| - 1, seed);
  }

  // ------------------------------------------------------------------ what the draws decide

  // A partner for every position, not above it.
  ghost predicate Draws(draws: seq<nat>)
  {
    forall i :: 0 <= i < |draws| ==> draws[i] <= i
  }

  // The shuffle with its draws written down: position i trades with draws[i], the last position first.
  function Dealt<T>(s: seq<T>, draws: seq<nat>, i: nat): (r: seq<T>)
    requires |draws| == |s| && (i == 0 || i < |s|) && forall j :: 0 <= j < |draws| ==> draws[j] <= j
    ensures |r| == |s|
    decreases i
  {
    if i == 0 then s else Dealt(Swapped(s, i, draws[i]), draws, i - 1)
  }

  // The generator after so many steps.
  function LcgAfter(seed: nat, steps: nat): (r: nat)
  {
    if steps == 0 then seed else LcgNext(LcgAfter(seed, steps - 1))
  }

  lemma {:induction false} LcgFirst(seed: nat, steps: nat)
    requires steps > 0
    ensures LcgAfter(seed, steps) == LcgAfter(LcgNext(seed), steps - 1)
  {
    if steps > 1 {
      LcgFirst(seed, steps - 1);
    }
  }

  // The partner of position i when it is drawn at this step of the generator.
  function DrawAt(seed: nat, step: nat, i: nat): (j: nat)
    ensures j <= i
  {
    LcgAfter(seed, step) % (i + 1)
  }

  // Position i takes its partner from step n - i of the generator.
  function DrawsUpTo(n: nat, m: nat, seed: nat): (draws: seq<nat>)
    requires m <= n
    ensures |draws| == m && forall i :: 0 <= i < m ==> draws[i] <= i && draws[i] == DrawAt(seed, n - i, i)
  {
    if m == 0 then [] else DrawsUpTo(n, m - 1, seed) + [DrawAt(seed, n - (m - 1), m - 1)]
  }

  function DrawsOf(n: nat, seed: nat): (draws: seq<nat>)
    ensures |draws| == n && forall i :: 0 <= i < n ==> draws[i] <= i && draws[i] == DrawAt(seed, n - i, i)
  {
    DrawsUpTo(n, n, seed)
  }

  // From position i down, the draws are those of the generator in this state.
  ghost predicate Follows(draws: seq<nat>, i: nat, state: nat)
    requires i < |draws|
  {
    forall j :: 0 < j <= i ==> draws[j] == DrawAt(state, i + 1 - j, j)
  }

  lemma FollowsNext(draws: seq<nat>, i: nat, state: nat)
    requires 0 < i < |draws| && Follows(draws, i, state)
    ensures draws[i] == LcgNext(state) % (i + 1) && Follows(draws, i - 1, LcgNext(state))
  {
    assert LcgAfter(state, 0) == state;
    forall j | 0 < j <= i - 1
      ensures draws[j] == DrawAt(LcgNext(state), i - j, j)
    {
      LcgFirst(state, i + 1 - j);
    }
  }

  lemma {:induction false} ShuffledFromDeals<T>(s: seq<T>, i: nat, state: nat, draws: seq<nat>)
    requires i < |draws| == |s| && Draws(draws) && Follows(draws, i, state)
    ensures ShuffledFrom(s, i, state) == Dealt(s, draws, i)
    decreases i
  {
    if i > 0 {
      FollowsNext(draws, i, state);
      ShuffledFromDeals(Swapped(s, i, draws[i]), i - 1, LcgNext(state), draws);
    }
  }

  lemma DrawsFollow(n: nat, seed: nat)
    requires n > 0
    ensures Follows(DrawsOf(n, seed), n - 1, seed)
  {
    var draws := DrawsOf(n, seed);
    forall j | 0 < j <= n - 1
      ensures draws[j] == DrawAt(seed, n - 1 + 1 - j, j)
    {
      assert n - 1 + 1 - j == n - j;
    }
  }

  // The shuffle of a seed deals the draws of that seed.
  lemma ShuffleDeals<T>(s: seq<T>, seed: nat)
    requires s != []
    ensures Shuffled(s, seed) == Dealt(s, DrawsOf(|s|, seed), |s| - 1)
  {
    DrawsFollow(|s|, seed);
    ShuffledFromDeals(s, |s| - 1, seed, DrawsOf(|s|, seed));
  }

  // Positions above i have their element; those up to i still hold what r wants there, in some order.
  ghost predicate Towards<T>(s: seq<T>, r: seq<T>, i: nat)
    requires i < |s| == |r|
  {
    s[i + 1..] == r[i + 1..] && multiset(s[..i + 1]) == multiset(r[..i + 1])
  }

  lemma {:induction false} DealtKeepsAbove<T>(s: seq<T>, draws: seq<nat>, i: nat, k: nat)
    requires |draws| == |s| && i < k < |s| && forall j :: 0 <= j < |draws| ==> draws[j] <= j
    ensures Dealt(s, draws, i)[k] == s[k]
    decreases i
  {
    if i > 0 {
      DealtKeepsAbove(Swapped(s, i, draws[i]), draws, i - 1, k);
    }
  }

  lemma SwapDifferent<T>(s: seq<T>, i: nat, j: nat)
    requires i < |s| && j < |s| && Distinct(s)
    ensures Distinct(Swapped(s, i, j))
  {
  }

  // Different draws deal different lists.
  lemma {:induction false} DrawsAreSeen<T>(s: seq<T>, draws: seq<nat>, draws': seq<nat>, i: nat)
    requires |draws| == |draws'| == |s| && i < |s| && Distinct(s)
    requires (forall j :: 0 <= j < |draws| ==> draws[j] <= j) && forall j :: 0 <= j < |draws'| ==> draws'[j] <= j
    requires Dealt(s, draws, i) == Dealt(s, draws', i)
    ensures forall k :: 0 <= k <= i ==> draws[k] == draws'[k]
    decreases i
  {
    if i > 0 {
      var a, b := Swapped(s, i, draws[i]), Swapped(s, i, draws'[i]);
      DealtKeepsAbove(a, draws, i - 1, i);
      DealtKeepsAbove(b, draws', i - 1, i);
      assert s[draws[i]] == s[draws'[i]];
      assert draws[i] == draws'[i];
      SwapDifferent(s, i, draws[i]);
      DrawsAreSeen(a, draws, draws', i - 1);
    }
  }

  lemma WithoutLast<T>(s: seq<T>, i: nat)
    requires i < |s|
    ensures multiset(s[..i + 1]) == multiset(s[..i]) + multiset{s[i]}
  {
    assert s[..i + 1] == s[..i] + [s[i]];
  }

  // With the last element in place, the rest still hold what is wanted of them.
  lemma LastInPlace<T>(t: seq<T>, r: seq<T>, i: nat)
    requires i < |t| == |r| && multiset(t[..i + 1]) == multiset(r[..i + 1]) && t[i] == r[i]
    ensures multiset(t[..i]) == multiset(r[..i])
  {
    WithoutLast(t, i);
    WithoutLast(r, i);
    assert multiset(t[..i]) == multiset(t[..i + 1]) - multiset{t[i]};
    assert multiset(r[..i]) == multiset(r[..i + 1]) - multiset{r[i]};
  }

  lemma SwapFront<T>(s: seq<T>, i: nat, j: nat)
    requires j <= i < |s|
    ensures multiset(Swapped(s, i, j)[..i + 1]) == multiset(s[..i + 1])
    ensures Swapped(s, i, j)[i + 1..] == s[i + 1..] && Swapped(s, i, j)[i] == s[j]
  {
    assert Swapped(s, i, j)[..i + 1] == Swapped(s[..i + 1], i, j);
    SwapIsPermutation(s[..i + 1], i, j);
  }

  lemma TailsMeet<T>(t: seq<T>, r: seq<T>, i: nat)
    requires i < |t| == |r| && t[i + 1..] == r[i + 1..] && t[i] == r[i]
    ensures t[i..] == r[i..]
  {
    assert t[i..] == [t[i]] + t[i + 1..] && r[i..] == [r[i]] + r[i + 1..];
  }

  lemma SwapsInto<T>(s: seq<T>, r: seq<T>, i: nat, j: nat)
    requires j <= i < |s| == |r| && Towards(s, r, i) && s[j] == r[i]
    ensures i > 0 ==> Towards(Swapped(s, i, j), r, i - 1)
    ensures i == 0 ==> s == r
  {
    var t := Swapped(s, i, j);
    SwapFront(s, i, j);
    LastInPlace(t, r, i);
    TailsMeet(t, r, i);
    if i == 0 {
      assert t == s && t[0..] == t && r[0..] == r;
    }
  }

  // From anywhere on the way, some draws lead to r.
  lemma {:induction false} DrawsTo<T>(s: seq<T>, r: seq<T>, i: nat) returns (draws: seq<nat>)
    requires i < |s| == |r| && Towards(s, r, i)
    ensures |draws| == |s| && Draws(draws) && Dealt(s, draws, i) == r
    decreases i
  {
    assert r[i] in multiset(r[..i + 1]) by {
      WithoutLast(r, i);
    }
    var j :| 0 <= j < |s[..i + 1]| && s[..i + 1][j] == r[i];
    SwapsInto(s, r, i, j);
    if i == 0 {
      draws := seq(|s|, _ => 0);
    } else {
      var rest := DrawsTo(Swapped(s, i, j), r, i - 1);
      draws := rest[i := j];
      SameBelow(Swapped(s, i, j), rest, draws, i - 1);
    }
  }

  lemma {:induction false} SameBelow<T>(s: seq<T>, draws: seq<nat>, draws': seq<nat>, i: nat)
    requires |draws| == |draws'| == |s| && i < |s| && Draws(draws) && Draws(draws')
    requires forall k :: 0 <= k <= i ==> draws[k] == draws'[k]
    ensures Dealt(s, draws, i) == Dealt(s, draws', i)
    decreases i
  {
    if i > 0 {
      SameBelow(Swapped(s, i, draws[i]), draws, draws', i - 1);
    }
  }

  // Every order of a list without repeats is dealt by exactly one list of draws.
  lemma EveryOrderHasItsDraws<T>(s: seq<T>, r: seq<T>) returns (draws: seq<nat>)
    requires s != [] && Distinct(s) && multiset(r) == multiset(s) && |r| == |s|
    ensures |draws| == |s| && Draws(draws) && Dealt(s, draws, |s| - 1) == r
    ensures forall other: seq<nat> ::
      |other| == |s| && Draws(other) && Dealt(s, other, |s| - 1) == r ==> other == draws
  {
    var last := |s| - 1;
    assert s[..last + 1] == s && r[..last + 1] == r;
    draws := DrawsTo(s, r, last);
    forall other: seq<nat> | |other| == |s| && Draws(other) && Dealt(s, other, last) == r
      ensures other == draws
    {
      DrawsAreSeen(s, other, draws, last);
    }
  }

  // ------------------------------------------------------------------ the generator

  // The multiplicative inverse of the multiplier modulo 2^64.
  const LCG_A_INVERSE := 13877824140714322085

  function LcgPrevious(state: nat): (r: nat)
    requires state < U64
    ensures r < U64
  {
    (state + (U64 - LCG_C)) * LCG_A_INVERSE % U64
  }

  lemma LcgUnfolds(x: nat) returns (k: int)
    ensures LcgNext(x) == x * LCG_A + LCG_C - k * U64
  {
    var a := x * LCG_A;
    k := a / U64 + (a % U64 + LCG_C) / U64;
    assert a == U64 * (a / U64) + a % U64;
  }

  // Every state has exactly one predecessor: the generator forgets nothing.
  lemma LcgIsBijection(x: nat)
    requires x < U64
    ensures LcgPrevious(LcgNext(x)) == x && LcgNext(LcgPrevious(x)) == x
  {
    LcgGoesBack(x);
    LcgComesForth(x);
  }

  lemma LcgGoesBack(x: nat)
    requires x < U64
    ensures LcgPrevious(LcgNext(x)) == x
  {
    var k := LcgUnfolds(x);
    var q := x * 4787856489426250814 + (1 - k) * LCG_A_INVERSE;
    RemainderIs((LcgNext(x) + (U64 - LCG_C)) * LCG_A_INVERSE, U64, q, x);
  }

  lemma LcgComesForth(x: nat)
    requires x < U64
    ensures LcgNext(LcgPrevious(x)) == x
  {
    var y := x + (U64 - LCG_C);
    var p, j := LcgPrevious(x), y * LCG_A_INVERSE / U64;
    assert p == y * LCG_A_INVERSE - j * U64;
    var k := LcgUnfolds(p);
    var q := y * 4787856489426250814 - j * LCG_A + 1 - k;
    assert LcgNext(p) == U64 * q + x;
    RemainderIs(LcgNext(p), U64, q, x);
    RemainderIs(LcgNext(p), U64, 0, LcgNext(p));
  }

  lemma LcgParity(seed: nat)
    ensures LcgNext(seed) % 2 == if seed % 2 == 0 then 1 else 0
  {
    var k := LcgUnfolds(seed);
    var h, e := seed / 2, seed % 2;
    var half := h * LCG_A + e * 3182068111923396502 + 721347520444481703 - k * 0x8000_0000_0000_0000;
    assert seed * LCG_A == 2 * (h * LCG_A) + e * LCG_A;
    assert LcgNext(seed) == 2 * half + e + 1;
    RemainderIs(LcgNext(seed), 2, if e == 0 then half else half + 1, if e == 0 then 1 else 0);
  }

  // The lowest bit of the generator alternates, so two items trade places exactly when the seed is odd.
  lemma TwoTradeIffOdd<T>(a: T, b: T, seed: nat)
    ensures Shuffled([a, b], seed) == if seed % 2 == 0 then [a, b] else [b, a]
  {
    LcgParity(seed);
    var next := LcgNext(seed);
    TwoSwap(a, b, next);
    assert ShuffledFrom(Swapped([a, b], 1, next % 2), 0, next) == Swapped([a, b], 1, next % 2);
  }

  lemma TwoSwap<T>(a: T, b: T, n: nat)
    ensures Swapped([a, b], 1, n % 2) == if n % 2 == 1 then [a, b] else [b, a]
  {
  }
}
