// Retry strategies over the reals. The random draw is an input; float rounding is not modelled.

module RetryPolicy {
  import opened Prelude

  const MAX_DELAY := 100.0 * 365.0 * 24.0 * 60.0 * 60.0
  const MAX_JITTER := 2.0

  datatype Limits = Limits(maxAttempts: Option<int>, maxTotal: Option<real>)

  datatype Strategy =
    | NoRetry
    | Constant(limits: Limits, delay: real, jitter: real)
    | Linear(limits: Limits, initial: real, step: real, jitter: real)
    | Exponential(limits: Limits, initial: real, multiplier: real, maxDelay: Option<real>, jitter: real)

  predicate ValidLimits(l: Limits) {
    && (l.maxAttempts.Some? ==> l.maxAttempts.value >= 1)
    && (l.maxTotal.Some? ==> l.maxTotal.value > 0.0)
  }

  /** The configurations the constructors accept. */
  predicate ValidStrategy(s: Strategy) {
    s.NoRetry? || (
      && ValidLimits(s.limits)
      && 0.0 <= s.jitter <= MAX_JITTER
      && match s {
           case Constant(_, delay, _) => delay > 0.0
           case Linear(_, initial, step, _) => initial > 0.0 && step >= 0.0
           case Exponential(_, initial, multiplier, maxDelay, _) =>
             initial > 0.0 && multiplier > 0.0 && (maxDelay.Some? ==> maxDelay.value > 0.0)
           case NoRetry => true
         })
  }

  function Power(b: real, n: nat): real { if n == 0 then 1.0 else b * Power(b, n - 1) }

  function Earlier(attempts: nat): nat { if attempts >= 1 then attempts - 1 else 0 }

  function MinReal(a: real, b: real): real { if a <= b then a else b }

  function BaseDelay(s: Strategy, attempts: nat): real
    requires !s.NoRetry?
  {
    match s
    case Constant(_, delay, _) => delay
    case Linear(_, initial, step, _) => initial + step * (Earlier(attempts) as real)
    case Exponential(_, initial, multiplier, _, _) => initial * Power(multiplier, Earlier(attempts))
  }

  /** The draw is uniform on [-jitter/2, jitter/2]; it is not taken at all when jitter is zero. */
  predicate ValidDraw(s: Strategy, draw: real) {
    s.NoRetry? || -s.jitter / 2.0 <= draw <= s.jitter / 2.0
  }

  function Ceiling(s: Strategy): Option<real> {
    if !s.Exponential? then None
    else if s.maxDelay.Some? then Some(MinReal(s.maxDelay.value, MAX_DELAY))
    else Some(MAX_DELAY)
  }

  function Jittered(base: real, jitter: real, draw: real): real {
    if jitter != 0.0 then base * (1.0 + draw) else base
  }

  function DelaySeconds(s: Strategy, attempts: nat, draw: real): real
    requires !s.NoRetry?
  {
    var jittered := Jittered(BaseDelay(s, attempts), s.jitter, draw);
    if s.Exponential? then
      MinReal(if s.maxDelay.Some? then MinReal(jittered, s.maxDelay.value) else jittered, MAX_DELAY)
    else jittered
  }

  function NextDelay(s: Strategy, first: real, last: real, attempts: nat, draw: real): Option<real> {
    if s.NoRetry? then None
    else if s.limits.maxAttempts.Some? && attempts >= s.limits.maxAttempts.value then None
    else
      var delay := DelaySeconds(s, attempts, draw);
      if s.limits.maxTotal.Some? && last - first + delay > s.limits.maxTotal.value then None else Some(delay)
  }

  lemma Times(a: real, b: real)
    ensures a >= 0.0 && b >= 0.0 ==> a * b >= 0.0
    ensures a > 0.0 && b > 0.0 ==> a * b > 0.0
  {
  }

  lemma TimesOrdered(a: real, b: real, c: real)
    requires a >= 0.0 && b <= c
    ensures a * b <= a * c
  {
    Times(a, c - b);
    assert a * (c - b) == a * c - a * b;
  }

  lemma {:induction false} PowerPositive(b: real, n: nat)
    requires b > 0.0
    ensures Power(b, n) > 0.0
  {
    if n > 0 {
      PowerPositive(b, n - 1);
      Times(b, Power(b, n - 1));
    }
  }

  lemma {:induction false} PowerGrows(b: real, n: nat, m: nat)
    requires b >= 1.0 && n <= m
    ensures Power(b, n) <= Power(b, m)
    decreases m
  {
    if n < m {
      PowerGrows(b, n, m - 1);
      PowerPositive(b, m - 1);
      TimesOrdered(Power(b, m - 1), 1.0, b);
    }
  }

  lemma BasePositive(s: Strategy, attempts: nat)
    requires ValidStrategy(s) && !s.NoRetry?
    ensures BaseDelay(s, attempts) > 0.0
  {
    match s
    case Constant(_, _, _) =>
    case Linear(_, initial, step, _) => Times(step, Earlier(attempts) as real);
    case Exponential(_, initial, multiplier, _, _) =>
      PowerPositive(multiplier, Earlier(attempts));
      Times(initial, Power(multiplier, Earlier(attempts)));
  }

  lemma JitterBand(base: real, jitter: real, draw: real)
    requires base > 0.0 && 0.0 <= jitter <= MAX_JITTER && -jitter / 2.0 <= draw <= jitter / 2.0
    ensures 0.0 <= base * (1.0 - jitter / 2.0) <= Jittered(base, jitter, draw) <= base * (1.0 + jitter / 2.0)
  {
    var half := jitter / 2.0;
    assert 0.0 <= half <= 1.0;
    Times(base, 1.0 - half);
    if jitter != 0.0 {
      TimesOrdered(base, 1.0 - half, 1.0 + draw);
      TimesOrdered(base, 1.0 + draw, 1.0 + half);
    } else {
      TimesOrdered(base, 1.0, 1.0 + half);
      TimesOrdered(base, 1.0 - half, 1.0);
    }
  }

  /** Every delay is non-negative, within the jitter band of its base value as far as the ceiling lets it
      be, and for the exponential form at most min(max_delay, the absolute cap). */
  lemma DelayInBand(s: Strategy, attempts: nat, draw: real)
    requires ValidStrategy(s) && !s.NoRetry? && ValidDraw(s, draw)
    ensures var base, d := BaseDelay(s, attempts), DelaySeconds(s, attempts, draw);
            var low, high := base * (1.0 - s.jitter / 2.0), base * (1.0 + s.jitter / 2.0);
            && 0.0 <= d <= high
            && (Ceiling(s).None? ==> low <= d)
            && (Ceiling(s).Some? ==> d <= Ceiling(s).value && (low <= d || d == Ceiling(s).value))
  {
    BasePositive(s, attempts);
    JitterBand(BaseDelay(s, attempts), s.jitter, draw);
  }

  /** A delay is granted exactly when neither limit is reached, and a granted delay keeps the total within
      its budget. */
  lemma GrantedIff(s: Strategy, first: real, last: real, attempts: nat, draw: real)
    requires ValidStrategy(s) && ValidDraw(s, draw)
    ensures var r := NextDelay(s, first, last, attempts, draw);
            && (r.Some? <==>
                  && !s.NoRetry?
                  && (s.limits.maxAttempts.Some? ==> attempts < s.limits.maxAttempts.value)
                  && (s.limits.maxTotal.Some? ==>
                        last - first + DelaySeconds(s, attempts, draw) <= s.limits.maxTotal.value))
            && (r.Some? ==>
                  && r.value == DelaySeconds(s, attempts, draw) && r.value >= 0.0
                  && (s.limits.maxTotal.Some? ==> (last - first) + r.value <= s.limits.maxTotal.value))
  {
    if !s.NoRetry? { DelayInBand(s, attempts, draw); }
  }

  // ----- the delays as numbers -----

  /** A constant delay is the configured one; the draw stretches it by its own share. */
  lemma ConstantDelay(s: Strategy, attempts: nat, draw: real)
    requires ValidStrategy(s) && s.Constant?
    ensures DelaySeconds(s, attempts, draw) == s.delay + (if s.jitter == 0.0 then 0.0 else s.delay * draw)
  {
  }

  /** A linear delay starts at the initial one and grows by the step with every further attempt. */
  lemma LinearDelay(s: Strategy, attempts: nat, draw: real)
    requires ValidStrategy(s) && s.Linear? && s.jitter == 0.0
    ensures DelaySeconds(s, 0, draw) == DelaySeconds(s, 1, draw) == s.initial
    ensures attempts >= 1 ==> DelaySeconds(s, attempts + 1, draw) - DelaySeconds(s, attempts, draw) == s.step
  {
    if attempts >= 1 {
      Distribute(Earlier(attempts + 1) as real, Earlier(attempts) as real, s.step);
    }
  }

  /** The first exponential delay is the initial one, and each next one multiplies it, up to the caps. */
  lemma ExponentialDelay(s: Strategy, attempts: nat, draw: real)
    requires ValidStrategy(s) && s.Exponential? && s.jitter == 0.0
    ensures BaseDelay(s, 0) == BaseDelay(s, 1) == s.initial
    ensures attempts >= 1 ==> BaseDelay(s, attempts + 1) == s.multiplier * BaseDelay(s, attempts)
    ensures var d := DelaySeconds(s, attempts, draw);
            && d <= BaseDelay(s, attempts) && d <= MAX_DELAY && (s.maxDelay.Some? ==> d <= s.maxDelay.value)
            && (d == BaseDelay(s, attempts) || d == MAX_DELAY || (s.maxDelay.Some? && d == s.maxDelay.value))
  {
    assert Power(s.multiplier, 0) == 1.0;
    if attempts >= 1 {
      assert Power(s.multiplier, attempts) == s.multiplier * Power(s.multiplier, attempts - 1);
      Regroup(s.initial, s.multiplier, Power(s.multiplier, attempts - 1));
    }
  }

  lemma Regroup(a: real, b: real, c: real)
    ensures a * (b * c) == b * (a * c)
  {
  }

  /** Under jitter a linear or exponential delay is its base, stretched by the draw's share, up to the caps. */
  lemma JitteredDelay(s: Strategy, attempts: nat, draw: real)
    requires ValidStrategy(s) && (s.Linear? || s.Exponential?) && s.jitter != 0.0
    ensures var d, b := DelaySeconds(s, attempts, draw), BaseDelay(s, attempts);
            if s.Linear? then d == b + b * draw
            else
              && d <= b + b * draw && d <= MAX_DELAY && (s.maxDelay.Some? ==> d <= s.maxDelay.value)
              && (d == b + b * draw || d == MAX_DELAY || (s.maxDelay.Some? && d == s.maxDelay.value))
  {
  }

  // ----- when the exponential form grows -----

  ghost predicate NeverShrinks(s: Strategy, draw: real)
    requires !s.NoRetry?
  {
    forall a: nat, b: nat :: a <= b ==> DelaySeconds(s, a, draw) <= DelaySeconds(s, b, draw)
  }

  predicate Unjittered(s: Strategy) { ValidStrategy(s) && s.Exponential? && s.jitter == 0.0 }

  lemma GrowingMultiplier(s: Strategy, a: nat, b: nat, draw: real)
    requires Unjittered(s) && s.multiplier >= 1.0 && a <= b
    ensures DelaySeconds(s, a, draw) <= DelaySeconds(s, b, draw)
  {
    PowerGrows(s.multiplier, Earlier(a), Earlier(b));
    TimesOrdered(s.initial, Power(s.multiplier, Earlier(a)), Power(s.multiplier, Earlier(b)));
    assert BaseDelay(s, a) <= BaseDelay(s, b);
  }

  /** Powers of a base below one vanish at least as fast as 1 / (1 + n * (1 - m)). */
  lemma {:induction false} PowersVanish(m: real, n: nat)
    requires 0.0 < m < 1.0
    ensures Power(m, n) * (1.0 + n as real * (1.0 - m)) <= 1.0
  {
    if n > 0 {
      var k, p := (n - 1) as real, Power(m, n - 1);
      PowersVanish(m, n - 1);
      PowerPositive(m, n - 1);
      // m * (1 + (k + 1) * (1 - m)) <= 1 + k * (1 - m), by (k + 1) * (1 - m) * (1 - m) >= 0
      Times(k + 1.0, (1.0 - m) * (1.0 - m));
      TimesOrdered(p, m * (1.0 + (k + 1.0) * (1.0 - m)), 1.0 + k * (1.0 - m));
      assert Power(m, n) * (1.0 + n as real * (1.0 - m)) == p * (m * (1.0 + (k + 1.0) * (1.0 - m)));
    }
  }

  /** A base delay shrinks below any positive bound. */
  lemma BaseVanishes(initial: real, m: real, bound: real) returns (n: nat)
    requires 0.0 < m < 1.0 && initial > 0.0 && bound > 0.0
    ensures initial * Power(m, n) < bound
  {
    var gap := (1.0 - m) * bound;
    Times(1.0 - m, bound);
    var q := Quotient(initial, gap);
    AboveFloor(q, gap);
    n := q.Floor + 1;
    var p := Power(m, n);
    PowerPositive(m, n);
    PowersVanish(m, n);
    TimesOrdered(p, initial, n as real * gap);
    assert p * (n as real * gap) == (p * (n as real * (1.0 - m))) * bound;
    assert p * (n as real * (1.0 - m)) == p * (1.0 + n as real * (1.0 - m)) - p;
    TimesOrdered(bound, p * (n as real * (1.0 - m)), 1.0 - p);
    Times(bound, p);
  }

  lemma Distribute(x: real, y: real, z: real)
    ensures (x - y) * z == x * z - y * z
  {
  }

  lemma Quotient(a: real, b: real) returns (q: real)
    requires a > 0.0 && b > 0.0
    ensures q > 0.0 && q * b == a
  {
    q := a / b;
    if q <= 0.0 { TimesOrdered(b, q, 0.0); }
  }

  lemma AboveFloor(q: real, b: real)
    requires q > 0.0 && b > 0.0
    ensures q.Floor >= 0 && (q.Floor + 1) as real * b > q * b
  {
    var up := (q.Floor + 1) as real;
    assert up > q;
    Times(up - q, b);
    Distribute(up, q, b);
  }

  lemma FirstDelayPositive(s: Strategy, draw: real)
    requires Unjittered(s)
    ensures DelaySeconds(s, 1, draw) > 0.0
  {
    BasePositive(s, 1);
  }

  /** Below one the delays shrink sooner or later, whatever the caps. */
  lemma ShrinkingMultiplier(s: Strategy, draw: real) returns (n: nat)
    requires Unjittered(s) && s.multiplier < 1.0
    ensures DelaySeconds(s, n + 1, draw) < DelaySeconds(s, 1, draw)
  {
    FirstDelayPositive(s, draw);
    n := BaseVanishes(s.initial, s.multiplier, DelaySeconds(s, 1, draw));
  }

  /** Without jitter the delays never shrink if and only if the multiplier is at least one. */
  lemma ExponentialGrowsIff(s: Strategy, draw: real)
    requires Unjittered(s)
    ensures NeverShrinks(s, draw) <==> s.multiplier >= 1.0
  {
    if s.multiplier >= 1.0 {
      forall a: nat, b: nat | a <= b ensures DelaySeconds(s, a, draw) <= DelaySeconds(s, b, draw) {
        GrowingMultiplier(s, a, b, draw);
      }
    } else {
      var n := ShrinkingMultiplier(s, draw);
    }
  }
}
