/** Bounded exponential backoff with hash jitter, over the reals. */
module Backoff {

  /** The configuration constraints of the policy. */
  datatype Config = Config(base: nat, max: nat, jitter: real)

  predicate ValidConfig(c: Config) {
    0 < c.base <= c.max && 0.0 <= c.jitter <= 1.0
  }

  function Pow2(n: nat): (r: nat)
    ensures r >= 1
  {
    if n == 0 then 1 else 2 * Pow2(n - 1)
  }

  function Min(a: int, b: int): int { if a < b then a else b }

  /** The capped exponential of an attempt. */
  function Raw(c: Config, attempt: int): nat
    requires ValidConfig(c)
  {
    Min(c.max, c.base * Pow2(if attempt > 1 then attempt - 1 else 0))
  }

  /** Rounding to the nearest integer, ties to even. */
  function Round(x: real): int {
    var n := x.Floor;
    var rest := x - n as real;
    if rest < 0.5 then n else if rest > 0.5 then n + 1 else if n % 2 == 0 then n else n + 1
  }

  /** `unit` is the hash as a fraction of its range. */
  function Factor(unit: real, jitter: real): real {
    1.0 + (unit * 2.0 - 1.0) * jitter
  }

  function Spread(raw: real, unit: real, jitter: real): real {
    raw * Factor(unit, jitter)
  }

  function Jittered(c: Config, attempt: int, unit: real): real
    requires ValidConfig(c)
  {
    Spread(Raw(c, attempt) as real, unit, c.jitter)
  }

  function Delay(c: Config, attempt: int, unit: real): int
    requires ValidConfig(c)
  {
    DelayFrom(Raw(c, attempt), c.max, unit, c.jitter)
  }

  function DelayFrom(raw: nat, max: nat, unit: real, jitter: real): int {
    if jitter == 0.0 then raw else Clamp(max, Spread(raw as real, unit, jitter))
  }

  /** The rounded value, kept within 0 and the cap. */
  function Clamp(max: nat, x: real): int {
    var d := Min(max, Round(x));
    if d < 0 then 0 else d
  }

  // ---------------------------------------------------------------- rounding

  lemma RoundNear(x: real)
    ensures Round(x) as real - 0.5 <= x <= Round(x) as real + 0.5
  {
  }

  lemma RoundMonotone(x: real, y: real)
    requires x <= y
    ensures Round(x) <= Round(y)
  {
    assert x.Floor <= y.Floor;
  }

  lemma RoundInt(n: int)
    ensures Round(n as real) == n
  {
  }

  // ---------------------------------------------------------------- bounds

  /** The jittered value lies within the jitter ratio of the capped exponential. */
  lemma JitterBounds(raw: real, unit: real, jitter: real)
    requires raw >= 0.0 && jitter >= 0.0 && 0.0 <= unit <= 1.0
    ensures raw * (1.0 - jitter) <= Spread(raw, unit, jitter) <= raw * (1.0 + jitter)
  {
    FactorBounds(unit, jitter);
    ScaledBounds(raw, 1.0 - jitter, Factor(unit, jitter), 1.0 + jitter);
  }

  lemma ScaledBounds(raw: real, low: real, x: real, high: real)
    requires raw >= 0.0 && low <= x <= high
    ensures raw * low <= raw * x <= raw * high
  {
    MultiplyMonotone(raw, low, x);
    MultiplyMonotone(raw, x, high);
  }

  lemma FactorBounds(unit: real, jitter: real)
    requires 0.0 <= unit <= 1.0 && jitter >= 0.0
    ensures 1.0 - jitter <= Factor(unit, jitter) <= 1.0 + jitter
    ensures Factor(1.0, jitter) == 1.0 + jitter && Factor(0.0, jitter) == 1.0 - jitter
  {
    MultiplyMonotone(jitter, 0.0, unit);
    MultiplyMonotone(jitter, unit, 1.0);
    assert (unit * 2.0 - 1.0) * jitter == 2.0 * (jitter * unit) - jitter;
  }

  lemma MultiplyMonotone(a: real, x: real, y: real)
    requires a >= 0.0 && x <= y
    ensures a * x <= a * y
  {
    assert a * (y - x) >= 0.0;
  }

  /** Within the jitter ratio of `raw`, up to rounding. */
  predicate WithinJitter(delay: int, raw: nat, jitter: real) {
    raw as real * (1.0 - jitter) - 0.5 <= delay as real <= raw as real * (1.0 + jitter) + 0.5
  }

  /** Every delay is within [0, max] and, up to rounding, within the jitter ratio of the
      capped exponential. */
  lemma DelayBounds(c: Config, attempt: int, unit: real)
    requires ValidConfig(c) && 0.0 <= unit <= 1.0
    ensures 0 <= Delay(c, attempt, unit) <= c.max
    ensures WithinJitter(Delay(c, attempt, unit), Raw(c, attempt), c.jitter)
  {
    DelayNear(Raw(c, attempt), c.max, unit, c.jitter);
  }

  lemma DelayNear(raw: nat, max: nat, unit: real, jitter: real)
    requires raw <= max && 0.0 <= jitter <= 1.0 && 0.0 <= unit <= 1.0
    ensures 0 <= DelayFrom(raw, max, unit, jitter) <= max
    ensures WithinJitter(DelayFrom(raw, max, unit, jitter), raw, jitter)
  {
    var x := raw as real;
    LowEnd(x, jitter);
    JitterBounds(x, unit, jitter);
    ClampNear(max, x * (1.0 - jitter), Spread(x, unit, jitter), x * (1.0 + jitter));
  }

  lemma ClampNear(max: nat, low: real, x: real, high: real)
    requires 0.0 <= low <= x <= high && low <= max as real
    ensures 0 <= Clamp(max, x) <= max && low - 0.5 <= Clamp(max, x) as real <= high + 0.5
  {
    RoundNear(x);
  }

  lemma LowEnd(raw: real, jitter: real)
    requires raw >= 0.0 && 0.0 <= jitter <= 1.0
    ensures 0.0 <= raw * (1.0 - jitter) <= raw <= raw * (1.0 + jitter)
  {
    MultiplyMonotone(raw, 0.0, 1.0 - jitter);
    MultiplyMonotone(raw, 1.0 - jitter, 1.0);
    MultiplyMonotone(raw, 1.0, 1.0 + jitter);
  }

  // ---------------------------------------------------------------- monotonicity

  /** The exponential of the next attempt is below the cap. */
  predicate BelowCap(c: Config, attempt: int)
    requires ValidConfig(c)
  {
    attempt >= 1 && c.base * Pow2(attempt) <= c.max
  }

  lemma RawDoubles(c: Config, attempt: int)
    requires ValidConfig(c) && BelowCap(c, attempt)
    ensures Raw(c, attempt + 1) == 2 * Raw(c, attempt)
  {
    assert Pow2(attempt) == 2 * Pow2(attempt - 1);
    assert c.base * Pow2(attempt) == 2 * (c.base * Pow2(attempt - 1));
  }

  /** Jitter up to one third never makes the next delay shorter, whatever the hashes say. */
  lemma DelaysNeverDecrease(c: Config, attempt: int, unit: real, next: real)
    requires ValidConfig(c) && c.jitter <= 1.0 / 3.0 && BelowCap(c, attempt)
    requires 0.0 <= unit <= 1.0 && 0.0 <= next <= 1.0
    ensures Delay(c, attempt, unit) <= Delay(c, attempt + 1, next)
  {
    RawDoubles(c, attempt);
    if c.jitter != 0.0 {
      var raw := Raw(c, attempt) as real;
      assert Raw(c, attempt + 1) as real == raw * 2.0;
      SpreadOrdered(raw, c.jitter, unit, next);
      RoundMonotone(Jittered(c, attempt, unit), Jittered(c, attempt + 1, next));
    }
  }

  lemma SpreadOrdered(raw: real, jitter: real, unit: real, next: real)
    requires raw >= 0.0 && 0.0 <= jitter <= 1.0 / 3.0 && 0.0 <= unit <= 1.0 && 0.0 <= next <= 1.0
    ensures Spread(raw, unit, jitter) <= Spread(raw * 2.0, next, jitter)
  {
    FactorBounds(unit, jitter);
    FactorBounds(next, jitter);
    OrderedProducts(raw, Factor(unit, jitter), Factor(next, jitter));
  }

  lemma OrderedProducts(raw: real, high: real, low: real)
    requires raw >= 0.0 && high <= 2.0 * low
    ensures raw * high <= (raw * 2.0) * low
  {
    MultiplyMonotone(raw, high, 2.0 * low);
    assert raw * (2.0 * low) == (raw * 2.0) * low;
  }

  /** A jitter ratio keeps delays from decreasing for every configuration and all hashes. */
  ghost predicate NeverDecreases(jitter: real) {
    forall c: Config, attempt: int, unit: real, next: real :: c.jitter == jitter ==> StepsUp(c, attempt, unit, next)
  }

  /** From this attempt to the next, with these hashes, the delay does not decrease. */
  ghost predicate StepsUp(c: Config, attempt: int, unit: real, next: real) {
    ValidConfig(c) && BelowCap(c, attempt) && 0.0 <= unit <= 1.0 && 0.0 <= next <= 1.0 ==>
      Delay(c, attempt, unit) <= Delay(c, attempt + 1, next)
  }

  /** A base large enough for the gap between the two extremes to survive rounding. */
  function WideBase(jitter: real): nat
    requires jitter > 1.0 / 3.0
  {
    var n := (2.0 / (3.0 * jitter - 1.0)).Floor;
    if n < 0 then 1 else n + 1
  }

  lemma WideGap(jitter: real)
    requires jitter > 1.0 / 3.0
    ensures var b := WideBase(jitter) as real; b * (3.0 * jitter - 1.0) > 1.0 && b >= 1.0
  {
    Quotient(3.0 * jitter - 1.0, WideBase(jitter) as real);
  }

  lemma Quotient(gap: real, b: real)
    requires gap > 0.0 && b >= 2.0 / gap
    ensures b * gap >= 2.0
  {
    var q := 2.0 / gap;
    assert q * gap == 2.0;
    MultiplyMonotone(gap, q, b);
  }

  /** Between 0 and the cap a delay is just the rounded value. */
  lemma DelayIs(c: Config, attempt: int, unit: real)
    requires ValidConfig(c) && c.jitter != 0.0 && 0.0 <= Jittered(c, attempt, unit) <= c.max as real
    ensures Delay(c, attempt, unit) == Round(Jittered(c, attempt, unit))
  {
    RoundInt(0);
    RoundInt(c.max);
    RoundMonotone(0.0, Jittered(c, attempt, unit));
    RoundMonotone(Jittered(c, attempt, unit), c.max as real);
  }

  lemma FirstRaws(c: Config)
    requires ValidConfig(c) && 2 * c.base <= c.max
    ensures Raw(c, 1) == c.base && Raw(c, 2) == 2 * c.base && BelowCap(c, 1)
  {
    assert Pow2(1) == 2 * Pow2(0) && Pow2(0) == 1;
  }

  /** Above one third some configuration and hashes shorten the next delay: the highest hash
      now and the lowest next. */
  lemma SomeDelayDecreases(jitter: real)
    requires 1.0 / 3.0 < jitter <= 1.0
    ensures var c := Config(WideBase(jitter), 4 * WideBase(jitter), jitter);
            && ValidConfig(c) && BelowCap(c, 1) && Delay(c, 2, 0.0) < Delay(c, 1, 1.0)
  {
    var b := WideBase(jitter);
    var c := Config(b, 4 * b, jitter);
    FirstRaws(c);
    var high, low := Jittered(c, 1, 1.0), Jittered(c, 2, 0.0);
    FactorBounds(1.0, jitter);
    WideGap(jitter);
    Extremes(b as real, jitter, high, low);
    DelayIs(c, 1, 1.0);
    DelayIs(c, 2, 0.0);
    RoundGap(high, low);
  }

  lemma Extremes(b: real, jitter: real, high: real, low: real)
    requires b >= 0.0 && 0.0 <= jitter <= 1.0
    requires high == b * (1.0 + jitter) && low == (2.0 * b) * (1.0 - jitter) && b * (3.0 * jitter - 1.0) > 1.0
    ensures high - low > 1.0 && 0.0 <= low && high <= 4.0 * b
  {
    var part := b * jitter;
    Expand(b, jitter);
    assert 0.0 <= part <= b by {
      MultiplyMonotone(b, 0.0, jitter);
      MultiplyMonotone(b, jitter, 1.0);
    }
  }

  lemma Expand(b: real, jitter: real)
    ensures b * (1.0 + jitter) == b + b * jitter
    ensures (2.0 * b) * (1.0 - jitter) == 2.0 * b - 2.0 * (b * jitter)
    ensures b * (3.0 * jitter - 1.0) == 3.0 * (b * jitter) - b
  {
  }

  lemma RoundGap(x: real, y: real)
    requires x - y > 1.0
    ensures Round(x) > Round(y)
  {
    RoundNear(x);
    RoundNear(y);
  }

  /** Delays never decrease before the cap if and only if the jitter ratio is at most 1/3. */
  lemma MonotoneIffThird(jitter: real)
    requires 0.0 <= jitter <= 1.0
    ensures NeverDecreases(jitter) <==> jitter <= 1.0 / 3.0
  {
    if jitter <= 1.0 / 3.0 {
      forall c: Config, attempt: int, unit: real, next: real | c.jitter == jitter
        ensures StepsUp(c, attempt, unit, next) {
        if ValidConfig(c) && BelowCap(c, attempt) && 0.0 <= unit <= 1.0 && 0.0 <= next <= 1.0 {
          DelaysNeverDecrease(c, attempt, unit, next);
        }
      }
    } else {
      SomeDelayDecreases(jitter);
      var c := Config(WideBase(jitter), 4 * WideBase(jitter), jitter);
      assert !StepsUp(c, 1, 1.0, 0.0);
    }
  }
}
