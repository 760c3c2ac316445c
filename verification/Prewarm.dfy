/** How many silent samples a callback may use to stabilise a freshly reset model without
    missing its deadline.  Arithmetic is over the reals. */
module Prewarm {

  const STEP_MAX: nat := 1024
  const STEP_MIN: nat := 1
  const OVERHEAD_NS: real := 1500.0
  const SAFETY_MARGIN: real := 0.75
  const MAX_PLAUSIBLE_COST_NS: real := 50000.0
  const FALLBACK_RATE: real := 48000.0

  datatype Family = WaveNetA2 | WaveNetA1 | Lstm | Other

  /** A measured cost may be missing, or not a finite number. */
  datatype Measured = Missing | NotFinite | Finite(ns: real)

  function FamilyFactor(f: Family): real {
    match f case WaveNetA2 => 4.0 case WaveNetA1 => 16.0 case Lstm => 16.0 case Other => 16.0
  }

  function TableCost(f: Family): real {
    match f case WaveNetA2 => 930.0 case Lstm => 75.0 case WaveNetA1 => 500.0 case Other => 500.0
  }

  function EffectiveFrames(frames: nat, minFrames: nat): (n: nat)
    ensures n > 0
  {
    if frames > 0 then frames else if minFrames > 1 then minFrames else 1
  }

  function EffectiveRate(rate: real): (r: real)
    ensures r > 0.0
  {
    if rate > 0.0 then rate else FALLBACK_RATE
  }

  function SampleCost(f: Family, m: Measured): (c: real)
    ensures c > 0.0
  {
    if m.Finite? && m.ns > 0.0 then (if m.ns < MAX_PLAUSIBLE_COST_NS then m.ns else MAX_PLAUSIBLE_COST_NS)
    else TableCost(f)
  }

  function PeriodNs(frames: nat, rate: real): real
    requires rate > 0.0
  {
    frames as real / rate * 1000000000.0
  }

  function FloorDiv(a: real, c: real): int
    requires c > 0.0
  {
    (a / c).Floor
  }

  function Scaled(frames: nat, factor: real): real { frames as real * factor }

  function RawStep(frames: nat, factor: real, chains: nat): int
    requires chains > 0
  {
    FloorDiv(Scaled(frames, factor), chains as real)
  }

  function Clamped(x: int): nat {
    if x < STEP_MIN then STEP_MIN else if x > STEP_MAX then STEP_MAX else x
  }

  /** The policy after its fallbacks have been resolved. */
  function StepFor(frames: nat, rate: real, factor: real, cost: real, chains: nat): nat
    requires rate > 0.0 && cost > 0.0 && chains > 0
  {
    var available := PeriodNs(frames, rate) * SAFETY_MARGIN - OVERHEAD_NS;
    var stepCost := cost * chains as real;
    PositiveProduct(cost, chains as real);
    if available < stepCost then 0
    else
      var budget := FloorDiv(available, stepCost);
      var bounded := if budget < STEP_MIN then STEP_MIN else budget;
      var raw := RawStep(frames, factor, chains);
      Clamped(if raw < bounded then raw else bounded)
  }

  function ComputePrewarmStep(frames: nat, minFrames: nat, rate: real, family: Family,
                              measured: Measured, chains: nat): nat {
    StepFor(EffectiveFrames(frames, minFrames), EffectiveRate(rate), FamilyFactor(family),
            SampleCost(family, measured), if chains > 1 then chains else 1)
  }

  // ---------- what it is for ----------

  /** `k` samples on each chain, with the overhead, fit the safe part of the callback. */
  predicate Fits(k: nat, frames: nat, rate: real, cost: real, chains: nat)
    requires rate > 0.0
  {
    k as real * (cost * chains as real) + OVERHEAD_NS <= SAFETY_MARGIN * PeriodNs(frames, rate)
  }

  /** What the proportional rule alone would allow. */
  predicate Proportional(k: nat, frames: nat, factor: real, chains: nat)
    requires chains > 0
  {
    k <= STEP_MAX && (k <= STEP_MIN || k <= RawStep(frames, factor, chains))
  }

  lemma PositiveProduct(a: real, b: real)
    requires a > 0.0 && b > 0.0
    ensures a * b > 0.0
  {}

  lemma FloorOfQuotient(a: real, c: real, k: nat)
    requires c > 0.0
    ensures k <= FloorDiv(a, c) <==> k as real * c <= a
  {
    var q := a / c;
    assert q * c == a;
    FloorBounds(q, k);
    ScaleBoth(k as real, q, c);
  }

  lemma FloorBounds(x: real, k: int)
    ensures k <= x.Floor <==> k as real <= x
  {}

  lemma ScaleBoth(x: real, y: real, c: real)
    requires c > 0.0
    ensures x <= y <==> x * c <= y * c
  {
    if x <= y { Scale(x, y, c); } else { StrictScale(y, x, c); }
  }

  lemma Scale(x: real, y: real, c: real)
    requires x <= y && c >= 0.0
    ensures x * c <= y * c
  {}

  lemma StrictScale(x: real, y: real, c: real)
    requires x < y && c > 0.0
    ensures x * c < y * c
  {}

  /** The step is the largest one that both fits the deadline budget and is allowed by the
      proportional rule; it is 0 exactly when not even one sample per chain fits. */
  lemma StepIsLargestThatFits(frames: nat, rate: real, factor: real, cost: real, chains: nat, k: nat)
    requires rate > 0.0 && cost > 0.0 && chains > 0
    ensures var s := StepFor(frames, rate, factor, cost, chains);
            (s == 0 <==> !Fits(1, frames, rate, cost, chains))
            && (s > 0 ==> Fits(s, frames, rate, cost, chains) && Proportional(s, frames, factor, chains))
            && (k > 0 && Fits(k, frames, rate, cost, chains) && Proportional(k, frames, factor, chains) ==> k <= s)
  {
    var available := PeriodNs(frames, rate) * SAFETY_MARGIN - OVERHEAD_NS;
    var stepCost := cost * chains as real;
    PositiveProduct(cost, chains as real);
    var s := StepFor(frames, rate, factor, cost, chains);
    hide FloorDiv;
    FloorOfQuotient(available, stepCost, 1);
    FloorOfQuotient(available, stepCost, s);
    FloorOfQuotient(available, stepCost, k);
    if Fits(k, frames, rate, cost, chains) && k > 0 {
      Scale(1.0, k as real, stepCost);
    }
  }

  /** `k` samples on each chain cost no more than three quarters of the callback. */
  predicate InTime(k: nat, cost: real, chains: nat, period: real) {
    k as real * (cost * chains as real) + 1500.0 <= 0.75 * period
  }

  /** `s` samples are the most that are in time and in proportion to the block, as far as `k` can
      tell; none at all exactly when one sample is not in time. */
  ghost predicate IsBest(s: nat, n: nat, rate: real, factor: real, cost: real, chains: nat, k: nat)
    requires rate > 0.0
  {
    var period := n as real / rate * 1000000000.0;
    var room := n as real * factor;
    (s == 0 <==> !InTime(1, cost, chains, period))
    && (s > 0 ==> InTime(s, cost, chains, period) && s <= 1024 && (s == 1 || s as real * chains as real <= room))
    && (0 < k <= 1024 && (k == 1 || k as real * chains as real <= room) && InTime(k, cost, chains, period)
        ==> k <= s)
  }

  lemma StepIsInTime(n: nat, rate: real, factor: real, cost: real, chains: nat, k: nat)
    requires rate > 0.0 && cost > 0.0 && chains > 0
    ensures IsBest(StepFor(n, rate, factor, cost, chains), n, rate, factor, cost, chains, k)
  {
    var s := StepFor(n, rate, factor, cost, chains);
    StepIsLargestThatFits(n, rate, factor, cost, chains, k);
    FloorOfQuotient(Scaled(n, factor), chains as real, s);
    FloorOfQuotient(Scaled(n, factor), chains as real, k);
    FitsIsInTime(1, n, rate, cost, chains);
    FitsIsInTime(s, n, rate, cost, chains);
    FitsIsInTime(k, n, rate, cost, chains);
    hide FloorDiv, StepFor, InTime, Fits;
  }

  lemma FitsIsInTime(k: nat, n: nat, rate: real, cost: real, chains: nat)
    requires rate > 0.0
    ensures Fits(k, n, rate, cost, chains) <==> InTime(k, cost, chains, n as real / rate * 1000000000.0)
  {}

  /** The same for the function the callback calls, every fallback and figure written out: no
      frames, no rate, no chains, a measurement that is missing, not a positive number or beyond
      50 microseconds. */
  lemma BudgetIsRespected(frames: nat, minFrames: nat, rate: real, family: Family, measured: Measured, chains: nat, k: nat)
    ensures IsBest(ComputePrewarmStep(frames, minFrames, rate, family, measured, chains),
                   if frames > 0 then frames else if minFrames > 0 then minFrames else 1,
                   if rate > 0.0 then rate else 48000.0,
                   if family.WaveNetA2? then 4.0 else 16.0,
                   if measured.Finite? && 0.0 < measured.ns <= 50000.0 then measured.ns
                   else if measured.Finite? && measured.ns > 50000.0 then 50000.0
                   else if family.WaveNetA2? then 930.0 else if family.Lstm? then 75.0 else 500.0,
                   if chains > 0 then chains else 1, k)
  {
    StepIsInTime(EffectiveFrames(frames, minFrames), EffectiveRate(rate), FamilyFactor(family),
                 SampleCost(family, measured), if chains > 1 then chains else 1, k);
    hide StepFor, IsBest;
  }

  /** What a measured cost buys: below 50 microseconds the step is in time at that cost, above at
      50 microseconds. */
  lemma MeasuredCostIsRespected(frames: nat, minFrames: nat, rate: real, family: Family, ns: real, chains: nat)
    requires frames > 0 && rate > 0.0 && chains > 0 && ns > 0.0
    ensures var s := ComputePrewarmStep(frames, minFrames, rate, family, Finite(ns), chains);
            var cost := if ns <= 50000.0 then ns else 50000.0;
            s > 0 ==> s as real * (cost * chains as real) + 1500.0 <= 0.75 * (frames as real / rate * 1000000000.0)
  {
    BudgetIsRespected(frames, minFrames, rate, family, Finite(ns), chains, 1);
    hide ComputePrewarmStep;
  }

  /** The steps the policy is documented with. */
  lemma DocumentedSteps()
    ensures ComputePrewarmStep(32, 32, 48000.0, WaveNetA2, Missing, 1) == 128
    ensures ComputePrewarmStep(32, 32, 48000.0, Lstm, Missing, 1) == 512
    ensures ComputePrewarmStep(64, 64, 192000.0, WaveNetA2, Missing, 1) == 256
    ensures ComputePrewarmStep(0, 256, 48000.0, WaveNetA2, Missing, 1) == 1024
    ensures ComputePrewarmStep(256, 256, 48000.0, WaveNetA2, Missing, 2) == 512
  {}

  lemma DocumentedMeasuredSteps()
    ensures ComputePrewarmStep(32, 32, 48000.0, WaveNetA2, Finite(20000.0), 1) == 24
    ensures ComputePrewarmStep(64, 64, 48000.0, WaveNetA2, Finite(20000.0), 1) == 49
    ensures ComputePrewarmStep(1, 1, 192000.0, WaveNetA2, Finite(10000.0), 1) == 0
    ensures ComputePrewarmStep(1, 1, 192000.0, WaveNetA2, Finite(2000.0), 2) == 0
    ensures ComputePrewarmStep(256, 256, 48000.0, WaveNetA2, Finite(500000.0), 1) == 79
  {}

  lemma QuotientIsMonotone(a: real, b: real, c: real, d: real)
    requires 0.0 <= a <= b && c >= d > 0.0
    ensures a / c <= b / d
  {
    var x, y := a / c, b / d;
    assert x * c == a && y * d == b;
    if x > y {
      if x >= 0.0 { Scale(d, c, x); }
      StrictScale(y, x, d);
    }
  }

  lemma FitsIsMonotone(k: nat, n: nat, m: nat, rate: real, cost: real, cost': real, chains: nat, chains': nat)
    requires n <= m && rate > 0.0 && cost >= cost' > 0.0 && chains >= chains' > 0
    ensures Fits(k, n, rate, cost, chains) ==> Fits(k, m, rate, cost', chains')
  {
    QuotientIsMonotone(n as real, m as real, rate, rate);
    Scale(cost', cost, chains' as real);
    Scale(chains' as real, chains as real, cost);
    Scale(cost' * chains' as real, cost * chains as real, k as real);
  }

  lemma RawIsMonotone(n: nat, m: nat, factor: real, chains: nat, chains': nat)
    requires n <= m && factor >= 0.0 && chains >= chains' > 0
    ensures RawStep(n, factor, chains) <= RawStep(m, factor, chains')
  {
    hide FloorDiv, Scaled;
    ScaledIsMonotone(n, m, factor);
    QuotientFloor(Scaled(n, factor), Scaled(m, factor), chains as real, chains' as real);
  }

  lemma ScaledIsMonotone(n: nat, m: nat, factor: real)
    requires n <= m && factor >= 0.0
    ensures 0.0 <= Scaled(n, factor) <= Scaled(m, factor)
  {
    Scale(n as real, m as real, factor);
    Scale(0.0, n as real, factor);
  }

  lemma QuotientFloor(a: real, b: real, c: real, d: real)
    requires 0.0 <= a <= b && c >= d > 0.0
    ensures FloorDiv(a, c) <= FloorDiv(b, d)
  {
    QuotientIsMonotone(a, b, c, d);
    FloorBounds(b / d, (a / c).Floor);
  }

  /** Longer blocks, fewer chains and cheaper models never get a smaller step. */
  lemma StepIsMonotone(n: nat, m: nat, rate: real, factor: real, cost: real, cost': real, chains: nat, chains': nat)
    requires n <= m && rate > 0.0 && factor >= 0.0 && cost >= cost' > 0.0 && chains >= chains' > 0
    ensures StepFor(n, rate, factor, cost, chains) <= StepFor(m, rate, factor, cost', chains')
  {
    hide StepFor, Fits, RawStep;
    var s := StepFor(n, rate, factor, cost, chains);
    StepIsLargestThatFits(n, rate, factor, cost, chains, 1);
    StepIsLargestThatFits(m, rate, factor, cost', chains', s);
    FitsIsMonotone(s, n, m, rate, cost, cost', chains, chains');
    RawIsMonotone(n, m, factor, chains, chains');
  }
}
