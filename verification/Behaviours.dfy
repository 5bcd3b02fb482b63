/** Behaviours of a transition system: states linked by operations. */
module Behaviours {
  ghost predicate Linked<X, O>(next: (X, O, X) -> bool, xs: seq<X>, ops: seq<O>)
  {
    && |xs| == |ops| + 1
    && forall i {:trigger ops[i]} :: 0 <= i < |ops| ==> next(xs[i], ops[i], xs[i + 1])
  }

  lemma LinkedExtends<X, O>(next: (X, O, X) -> bool, xs: seq<X>, ops: seq<O>, op: O, y: X)
    requires Linked(next, xs, ops) && next(xs[|ops|], op, y)
    ensures Linked(next, xs + [y], ops + [op])
  {
    var more := ops + [op];
    forall i | 0 <= i < |more|
      ensures next((xs + [y])[i], more[i], (xs + [y])[i + 1])
    {
      assert i < |ops| ==> more[i] == ops[i];
    }
  }

  // What holds first and is kept by every step holds throughout.
  lemma {:induction false} Throughout<X(!new), O(!new)>(
    next: (X, O, X) -> bool, inv: X -> bool, xs: seq<X>, ops: seq<O>, k: nat)
    requires Linked(next, xs, ops) && k < |xs| && inv(xs[0])
    requires forall x, op, y :: inv(x) && next(x, op, y) ==> inv(y)
    ensures inv(xs[k])
    decreases k
  {
    if k > 0 {
      Throughout(next, inv, xs, ops, k - 1);
      assert next(xs[k - 1], ops[k - 1], xs[k]);
    }
  }
}
