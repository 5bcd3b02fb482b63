/** The batch-size ramp in exact arithmetic: from start to end over a number of warmup tokens, rounded to the
    nearest integer, halves up. The coordinator is proved for every ramp; this is the one it is given. */
module BatchRamp {
  import opened CoordinatorSpec
  import opened CoordinatorInvariants
  import opened CoordinatorRuns
  import opened DataRuns

  // What the ramp adds to start after some tokens.
  function Added(rise: nat, warmup: nat, tokens: nat): (r: nat)
    requires warmup > 0
  {
    (2 * (rise * tokens) + warmup) / (2 * warmup)
  }

  function RampedSize(start: nat, end: nat, warmup: nat, tokens: nat): (b: nat)
    requires start <= end
  {
    if tokens >= warmup then end else start + Added(end - start, warmup, tokens)
  }

  // The added part is the integer nearest to rise * tokens / warmup.
  lemma AddedIsNearest(rise: nat, warmup: nat, tokens: nat)
    requires warmup > 0
    ensures var r := Added(rise, warmup, tokens);
      r * (2 * warmup) - warmup <= 2 * (rise * tokens) < r * (2 * warmup) + warmup
  {
    var d, x := 2 * warmup, 2 * (rise * tokens) + warmup;
    assert x == x / d * d + x % d;
  }

  lemma MultipleBelow(a: int, b: int, d: nat)
    requires d > 0 && a * d < b * d + d
    ensures a <= b
  {
    if a > b {
      AtLeastOneMore(a, b, d);
    }
  }

  lemma AtLeastOneMore(a: int, b: int, d: nat)
    requires a > b
    ensures a * d >= b * d + d
  {
    Scaled(0, a - b - 1, d);
    assert a * d == b * d + d + (a - b - 1) * d;
  }

  lemma Scaled(a: nat, b: nat, d: nat)
    requires a <= b
    ensures a * d <= b * d
  {
  }

  lemma AddedMonotone(rise: nat, warmup: nat, tokens: nat, later: nat)
    requires warmup > 0 && tokens <= later
    ensures Added(rise, warmup, tokens) <= Added(rise, warmup, later)
  {
    AddedIsNearest(rise, warmup, tokens);
    AddedIsNearest(rise, warmup, later);
    assert rise * tokens <= rise * later;
    MultipleBelow(Added(rise, warmup, tokens), Added(rise, warmup, later), 2 * warmup);
  }

  lemma AddedAtEnd(rise: nat, warmup: nat)
    requires warmup > 0
    ensures Added(rise, warmup, warmup) == rise
  {
    AddedIsNearest(rise, warmup, warmup);
    var r, d := Added(rise, warmup, warmup), 2 * warmup;
    assert 2 * (rise * warmup) == rise * d;
    MultipleBelow(r, rise, d);
    MultipleBelow(rise, r, d);
  }

  // Batches never shrink, start at start, and never leave the configured range.
  lemma RampIsMonotone(start: nat, end: nat, warmup: nat, tokens: nat, later: nat)
    requires start <= end && tokens <= later
    ensures start <= RampedSize(start, end, warmup, tokens) <= RampedSize(start, end, warmup, later) <= end
    ensures warmup > 0 ==> RampedSize(start, end, warmup, 0) == start
  {
    if warmup > 0 {
      AddedAtEnd(end - start, warmup);
      if later < warmup {
        AddedMonotone(end - start, warmup, tokens, later);
        AddedMonotone(end - start, warmup, later, warmup);
      } else if tokens < warmup {
        AddedMonotone(end - start, warmup, tokens, warmup);
      }
      AddedAtStart(end - start, warmup);
    }
  }

  lemma AddedAtStart(rise: nat, warmup: nat)
    requires warmup > 0
    ensures Added(rise, warmup, 0) == 0
  {
    assert rise * 0 == 0;
    assert warmup / (2 * warmup) == 0;
  }

  // The configured ramp is the one above.
  ghost predicate RampsUp(c: Config)
  {
    && c.globalBatchSizeStart <= c.globalBatchSizeEnd
    && forall tokens: nat :: tokens < c.globalBatchSizeWarmupTokens ==>
         c.ramp(tokens) ==
           c.globalBatchSizeStart +
           Added(c.globalBatchSizeEnd - c.globalBatchSizeStart, c.globalBatchSizeWarmupTokens, tokens)
  }

  // Then every batch has the ramped size: interpolated during the warmup tokens and the end size after them.
  lemma BatchesRamp(c: Config, tokens: nat)
    requires RampsUp(c)
    ensures BatchSize(c, tokens) ==
      RampedSize(c.globalBatchSizeStart, c.globalBatchSizeEnd, c.globalBatchSizeWarmupTokens, tokens)
  {
  }

  lemma LaterRoundsAreLarger(c: Config, log: seq<(nat, nat)>, i: nat, j: nat)
    requires ConfigOk(c) && RampsUp(c) && LogIsRight(c, log) && i <= j < |log|
    ensures c.globalBatchSizeStart <= log[i].1 <= log[j].1 <= c.globalBatchSizeEnd
  {
    StepStartMonotone(c, i + 1, j + 1);
    var a, b := StepStart(c, i + 1), StepStart(c, j + 1);
    Scaled(a, b, c.sequenceLength);
    BatchesRamp(c, a * c.sequenceLength);
    BatchesRamp(c, b * c.sequenceLength);
    RampIsMonotone(c.globalBatchSizeStart, c.globalBatchSizeEnd, c.globalBatchSizeWarmupTokens,
                   a * c.sequenceLength, b * c.sequenceLength);
  }

  lemma LoggedSize(c: Config, log: seq<(nat, nat)>, i: nat)
    requires RampsUp(c) && LogIsRight(c, log) && i < |log|
    ensures log[i].1 ==
      RampedSize(c.globalBatchSizeStart, c.globalBatchSizeEnd, c.globalBatchSizeWarmupTokens, log[i].0 * c.sequenceLength)
  {
    BatchesRamp(c, log[i].0 * c.sequenceLength);
  }

  // Over every run a round has the ramped size of the tokens before it; so rounds never get smaller and stay within
  // the configured sizes, and every round has data.
  lemma RoundsNeverShrink(c: Config, x: Traced, i: nat, j: nat)
    requires ConfigOk(c) && RampsUp(c) && Reachable(c, x) && i <= j < |x.h.log|
    ensures x.h.log[i].1 ==
      RampedSize(c.globalBatchSizeStart, c.globalBatchSizeEnd, c.globalBatchSizeWarmupTokens, x.h.log[i].0 * c.sequenceLength)
    ensures 0 < c.globalBatchSizeStart <= x.h.log[i].1 <= x.h.log[j].1 <= c.globalBatchSizeEnd
  {
    ReachableRecords(c, x);
    LoggedSize(c, x.h.log, i);
    LaterRoundsAreLarger(c, x.h.log, i, j);
  }
}
