/**
 * The wave field of the CPU demo as pure values: the tunable parameters with
 * their clamp ranges, the single ripple slot and its lifecycle, the per-tick
 * advance of the field state, and the height formula at a point.
 *
 * The trigonometric functions are not modelled: the height formula takes
 * them as a `Math` record of arbitrary real functions, so every fact proved
 * here holds whatever sin, cos, exp and sqrt compute.
 */
module CpuField {

  const SPEED_MIN: real := 0.1
  const SPEED_MAX: real := 5.0
  const HEIGHT_MIN: real := 5.0
  const HEIGHT_MAX: real := 100.0
  const FREQUENCY_MIN: real := 0.02
  const FREQUENCY_MAX: real := 0.5

  /** Ripple age advances this many times faster than wall-clock dt. */
  const RIPPLE_RATE: real := 5.0
  /** A ripple retires once its age exceeds this. */
  const RIPPLE_LIFETIME: real := 10.0

  /** The functions the height formula calls; left uninterpreted. */
  datatype Math = Math(sin: real -> real, cos: real -> real, exp: real -> real, sqrt: real -> real)

  /** The single ripple slot: origin, age, and whether it is running. */
  datatype Ripple = Ripple(x: real, y: real, age: real, active: bool)

  /** Everything the height at a point depends on, besides the point. */
  datatype FieldState = FieldState(
    time: real,
    speed: real,
    amplitude: real,
    frequency: real,
    ripple: Ripple)

  /** std::max(lo, std::min(hi, v)). */
  function Clamp(lo: real, hi: real, v: real): (c: real)
    ensures lo <= hi ==> lo <= c <= hi
    ensures lo <= v <= hi ==> c == v
    ensures lo <= hi && v > hi ==> c == hi
    ensures v < lo ==> c == lo
  {
    if lo > (if hi < v then hi else v) then lo else if hi < v then hi else v
  }

  /** Clamping is idempotent: a second clamp to the same range changes nothing. */
  lemma ClampIdempotent(lo: real, hi: real, v: real)
    requires lo <= hi
    ensures Clamp(lo, hi, Clamp(lo, hi, v)) == Clamp(lo, hi, v)
  {
  }

  /** The three tunables lie in their clamp ranges. */
  predicate ParamsInRange(speed: real, amplitude: real, frequency: real)
  {
    && SPEED_MIN <= speed <= SPEED_MAX
    && HEIGHT_MIN <= amplitude <= HEIGHT_MAX
    && FREQUENCY_MIN <= frequency <= FREQUENCY_MAX
  }

  /** The new wave speed after a speed key: the sum, clamped to [0.1, 5]. */
  function AdjustedSpeed(speed: real, delta: real): (s: real)
    ensures SPEED_MIN <= s <= SPEED_MAX
    ensures SPEED_MIN <= speed + delta <= SPEED_MAX ==> s == speed + delta
  {
    Clamp(SPEED_MIN, SPEED_MAX, speed + delta)
  }

  /** The new amplitude after a height key: the sum, clamped to [5, 100]. */
  function AdjustedHeight(amplitude: real, delta: real): (a: real)
    ensures HEIGHT_MIN <= a <= HEIGHT_MAX
    ensures HEIGHT_MIN <= amplitude + delta <= HEIGHT_MAX ==> a == amplitude + delta
  {
    Clamp(HEIGHT_MIN, HEIGHT_MAX, amplitude + delta)
  }

  /** The new frequency after a frequency key: the sum, clamped to [0.02, 0.5]. */
  function AdjustedFrequency(frequency: real, delta: real): (f: real)
    ensures FREQUENCY_MIN <= f <= FREQUENCY_MAX
    ensures FREQUENCY_MIN <= frequency + delta <= FREQUENCY_MAX ==> f == frequency + delta
  {
    Clamp(FREQUENCY_MIN, FREQUENCY_MAX, frequency + delta)
  }

  /** A huge height step from any amplitude in range saturates at the maximum, not at the sum. */
  lemma AdjustHeightSaturates(amplitude: real)
    requires HEIGHT_MIN <= amplitude <= HEIGHT_MAX
    ensures AdjustedHeight(amplitude, 1000.0) == HEIGHT_MAX
    ensures AdjustedHeight(amplitude, -1000.0) == HEIGHT_MIN
  {
  }

  /** A new ripple at (x, y): age 0, running. Any earlier ripple is gone. */
  function NewRipple(x: real, y: real): (r: Ripple)
    ensures RippleInvariant(r) && r.active
  {
    Ripple(x, y, 0.0, true)
  }

  /**
   * What one update tick of length dt does to the ripple slot: an active
   * ripple ages by dt * 5 and is retired with age reset to 0 once its age
   * exceeds 10; an inactive slot is left as it is.
   */
  function AgeRipple(r: Ripple, dt: real): (r': Ripple)
    ensures r'.x == r.x && r'.y == r.y
    ensures r'.active ==> r.active && r'.age <= RIPPLE_LIFETIME
    ensures r.active && !r'.active ==> r'.age == 0.0
    ensures !r.active ==> r' == r
  {
    if r.active then
      var age := r.age + dt * RIPPLE_RATE;
      if age > RIPPLE_LIFETIME then r.(active := false, age := 0.0) else r.(age := age)
    else r
  }

  /** An inactive slot has age 0; an active ripple's age lies in [0, 10]. */
  predicate RippleInvariant(r: Ripple)
  {
    if r.active then 0.0 <= r.age <= RIPPLE_LIFETIME else r.age == 0.0
  }

  /** Ageing keeps the ripple's origin, and keeps the invariant for every dt >= 0. */
  lemma AgeRippleKeepsInvariant(r: Ripple, dt: real)
    requires RippleInvariant(r) && dt >= 0.0
    ensures RippleInvariant(AgeRipple(r, dt))
    ensures AgeRipple(r, dt).x == r.x && AgeRipple(r, dt).y == r.y
  {
  }

  /** The ripple slot after n update ticks of the same length dt. */
  function AgeRippleTimes(r: Ripple, dt: real, n: nat): Ripple
  {
    if n == 0 then r else AgeRipple(AgeRippleTimes(r, dt, n - 1), dt)
  }

  /** A retired ripple stays retired: ticks never revive the slot. */
  lemma {:induction false} RetiredStaysRetired(r: Ripple, dt: real, n: nat)
    requires !r.active
    ensures AgeRippleTimes(r, dt, n) == r
  {
    if n > 0 {
      RetiredStaysRetired(r, dt, n - 1);
    }
  }

  /** While the accumulated age has not passed the lifetime, the ripple runs with age growing by 5 * dt per tick. */
  lemma {:induction false} RippleAgesLinearly(r: Ripple, dt: real, n: nat)
    requires r.active && dt >= 0.0
    requires r.age + n as real * dt * RIPPLE_RATE <= RIPPLE_LIFETIME
    ensures AgeRippleTimes(r, dt, n) == r.(age := r.age + n as real * dt * RIPPLE_RATE)
  {
    if n > 0 {
      var m := (n - 1) as real;
      assert m * dt * RIPPLE_RATE <= n as real * dt * RIPPLE_RATE by {
        assert n as real * dt * RIPPLE_RATE == m * dt * RIPPLE_RATE + dt * RIPPLE_RATE;
      }
      RippleAgesLinearly(r, dt, n - 1);
      assert r.age + m * dt * RIPPLE_RATE + dt * RIPPLE_RATE == r.age + n as real * dt * RIPPLE_RATE;
    }
  }

  /**
   * The ripple retires at exactly the first tick n at which its accumulated
   * age passes the lifetime: it is still running after n - 1 ticks, is
   * inactive with age 0 after n, and stays so on every later tick.
   */
  lemma RippleRetiresOnce(r: Ripple, dt: real, n: nat, later: nat)
    requires r.active && dt >= 0.0 && n >= 1
    requires r.age + (n - 1) as real * dt * RIPPLE_RATE <= RIPPLE_LIFETIME
    requires r.age + n as real * dt * RIPPLE_RATE > RIPPLE_LIFETIME
    ensures AgeRippleTimes(r, dt, n - 1).active
    ensures AgeRippleTimes(r, dt, n) == r.(active := false, age := 0.0)
    ensures AgeRippleTimes(r, dt, n + later) == r.(active := false, age := 0.0)
  {
    var m := (n - 1) as real;
    var prev := AgeRippleTimes(r, dt, n - 1);
    RippleAgesLinearly(r, dt, n - 1);
    assert prev == r.(age := r.age + m * dt * RIPPLE_RATE);
    assert n as real * dt * RIPPLE_RATE == m * dt * RIPPLE_RATE + dt * RIPPLE_RATE;
    assert prev.age + dt * RIPPLE_RATE > RIPPLE_LIFETIME;
    assert AgeRippleTimes(r, dt, n) == AgeRipple(prev, dt);
    AgeRippleTimesSplit(r, dt, n, later);
    RetiredStaysRetired(r.(active := false, age := 0.0), dt, later);
  }

  /** n + k ticks are n ticks followed by k ticks. */
  lemma {:induction false} AgeRippleTimesSplit(r: Ripple, dt: real, n: nat, k: nat)
    ensures AgeRippleTimes(r, dt, n + k) == AgeRippleTimes(AgeRippleTimes(r, dt, n), dt, k)
  {
    if k > 0 {
      AgeRippleTimesSplit(r, dt, n, k - 1);
    }
  }

  /**
   * One update tick of the field state: time advances by dt * speed, the
   * ripple ages; the parameters are untouched.
   */
  function Advance(s: FieldState, dt: real): (s': FieldState)
    ensures s'.speed == s.speed && s'.amplitude == s.amplitude && s'.frequency == s.frequency
  {
    s.(time := s.time + dt * s.speed, ripple := AgeRipple(s.ripple, dt))
  }

  /** On a tick with dt >= 0 at positive speed the clock never runs backwards, and the ripple invariant is kept. */
  lemma AdvanceMonotone(s: FieldState, dt: real)
    requires dt >= 0.0 && s.speed > 0.0 && RippleInvariant(s.ripple)
    ensures Advance(s, dt).time >= s.time
    ensures RippleInvariant(Advance(s, dt).ripple)
  {
    AgeRippleKeepsInvariant(s.ripple, dt);
  }

  function Square(v: real): real
  {
    v * v
  }

  /**
   * What the height bounds need of the library functions: sine and cosine
   * lie in [-1, 1], exp maps non-positive arguments into [0, 1], and the
   * square root of a non-negative number is non-negative.
   */
  ghost predicate MathBounded(m: Math)
  {
    && (forall t :: -1.0 <= m.sin(t) <= 1.0)
    && (forall t :: -1.0 <= m.cos(t) <= 1.0)
    && (forall t :: t <= 0.0 ==> 0.0 <= m.exp(t) <= 1.0)
    && (forall t :: t >= 0.0 ==> m.sqrt(t) >= 0.0)
  }

  /** The product of two factors in [-1, 1] lies in [-1, 1]. */
  lemma ProductBounded(a: real, b: real)
    ensures -1.0 <= a <= 1.0 && -1.0 <= b <= 1.0 ==> -1.0 <= a * b <= 1.0
  {
    if -1.0 <= a <= 1.0 && -1.0 <= b <= 1.0 {
      if a >= 0.0 {
        assert a * b <= a * 1.0 && a * b >= a * -1.0;
      } else {
        assert a * b <= -a && a * b >= a;
      }
    }
  }

  /**
   * Two products of factors in [-1, 1], weighted 0.5 and 0.3 and scaled by
   * a non-negative a, lie in [-0.8 * a, 0.8 * a].
   */
  lemma WeightedWavesBounded(s1: real, c1: real, s2: real, s3: real, a: real)
    requires -1.0 <= s1 <= 1.0 && -1.0 <= c1 <= 1.0 && -1.0 <= s2 <= 1.0 && -1.0 <= s3 <= 1.0
    requires a >= 0.0
    ensures -0.8 * a <= WaveMix(s1, c1, s2, s3, a) <= 0.8 * a
  {
    ProductBounded(s1, c1);
    ProductBounded(s2, s3);
    var mix := s1 * c1 * 0.5 + s2 * s3 * 0.3;
    assert -0.8 <= mix <= 0.8;
    assert mix * a <= 0.8 * a && -0.8 * a <= mix * a;
  }

  /** The argument of a travelling wave at coordinate p: p * k + t. */
  function Phase(p: real, k: real, t: real): real
  {
    p * k + t
  }

  /**
   * The superposition of wave1 = s1 * c1 and wave2 = s2 * s3 with weights
   * 0.5 and 0.3, scaled by the amplitude a.
   */
  function WaveMix(s1: real, c1: real, s2: real, s3: real, a: real): real
  {
    var wave1 := s1 * c1;
    var wave2 := s2 * s3;
    (wave1 * 0.5 + wave2 * 0.3) * a
  }

  /** The two superposed travelling sine waves, scaled by the amplitude; flat when the amplitude is 0. */
  function BaseWave(m: Math, x: real, y: real, s: FieldState): (w: real)
    ensures s.amplitude == 0.0 ==> w == 0.0
  {
    WaveMix(
      m.sin(Phase(x, s.frequency, s.time)), m.cos(Phase(y, s.frequency, s.time * 0.8)),
      m.sin(Phase(x, s.frequency * 1.7, s.time * 1.3)), m.sin(Phase(y, s.frequency * 1.3, s.time)),
      s.amplitude)
  }

  /** With sine and cosine in [-1, 1], the base wave never exceeds 0.8 times the amplitude either way. */
  lemma BaseWaveBounded(m: Math, x: real, y: real, s: FieldState)
    requires MathBounded(m) && s.amplitude >= 0.0
    ensures -0.8 * s.amplitude <= BaseWave(m, x, y, s) <= 0.8 * s.amplitude
  {
    WeightedWavesBounded(
      m.sin(Phase(x, s.frequency, s.time)), m.cos(Phase(y, s.frequency, s.time * 0.8)),
      m.sin(Phase(x, s.frequency * 1.7, s.time * 1.3)), m.sin(Phase(y, s.frequency * 1.3, s.time)),
      s.amplitude);
  }

  /** The ripple's contribution at (x, y): a damped radial sine while active, else nothing. */
  function RippleWave(m: Math, x: real, y: real, r: Ripple): (w: real)
    ensures !r.active ==> w == 0.0
  {
    if r.active then
      var dist := m.sqrt(Square(x - r.x) + Square(y - r.y));
      m.sin(dist * 0.05 - r.age) * m.exp(-dist * 0.005) * 50.0
    else 0.0
  }

  /**
   * With sine in [-1, 1], non-negative square roots and exp of a
   * non-positive number in [0, 1], the ripple adds at most 50 either way.
   */
  lemma RippleWaveBounded(m: Math, x: real, y: real, r: Ripple)
    requires MathBounded(m)
    ensures -50.0 <= RippleWave(m, x, y, r) <= 50.0
  {
    if r.active {
      var sum := Square(x - r.x) + Square(y - r.y);
      assert sum >= 0.0;
      var dist := m.sqrt(sum);
      var wave := m.sin(dist * 0.05 - r.age);
      var damping := m.exp(-dist * 0.005);
      assert -1.0 <= wave <= 1.0 && 0.0 <= damping <= 1.0;
      ProductBounded(wave, damping);
      assert RippleWave(m, x, y, r) == wave * damping * 50.0;
    }
  }

  /** Height of the water surface at (x, y) in field state s. */
  function Height(m: Math, x: real, y: real, s: FieldState): (h: real)
    ensures !s.ripple.active ==> h == BaseWave(m, x, y, s)
  {
    BaseWave(m, x, y, s) + RippleWave(m, x, y, s.ripple)
  }

  /** With bounded library functions, the height lies within 0.8 * amplitude + 50 of the rest level. */
  lemma HeightBounded(m: Math, x: real, y: real, s: FieldState)
    requires MathBounded(m) && s.amplitude >= 0.0
    ensures -0.8 * s.amplitude - 50.0 <= Height(m, x, y, s) <= 0.8 * s.amplitude + 50.0
  {
    BaseWaveBounded(m, x, y, s);
    RippleWaveBounded(m, x, y, s.ripple);
  }

  /**
   * Once a ripple has retired, the height everywhere is the base wave again:
   * the ripple leaves no trace.
   */
  lemma RetiredRippleLeavesNoTrace(m: Math, x: real, y: real, s: FieldState, dt: real)
    requires s.ripple.active && s.ripple.age + dt * RIPPLE_RATE > RIPPLE_LIFETIME
    ensures !Advance(s, dt).ripple.active
    ensures Height(m, x, y, Advance(s, dt)) == BaseWave(m, x, y, Advance(s, dt))
  {
  }

  /**
   * A freshly created ripple contributes nothing at its own origin (if sine
   * and square root vanish at 0): the epicentre is a zero crossing. This is
   * a fact about the formula only: the simulation never samples a ripple at
   * age 0, since update ages it by 5 * dt before the grid is resampled, and
   * no grid point need lie exactly at the click.
   */
  lemma NewRippleFlatAtOrigin(m: Math, x: real, y: real)
    requires m.sin(0.0) == 0.0 && m.sqrt(0.0) == 0.0
    ensures RippleWave(m, x, y, NewRipple(x, y)) == 0.0
  {
    assert Square(x - x) + Square(y - y) == 0.0;
  }

  /**
   * At time 0 (if sine vanishes at 0) the base wave is flat at the origin.
   * This too is a fact about the formula only: the CPU grid has no column at
   * x = 0 (its columns start at 265), and the clock has already advanced by
   * dt * speed when the grid is first resampled.
   */
  lemma BaseWaveFlatAtStart(m: Math, s: FieldState)
    requires m.sin(0.0) == 0.0 && s.time == 0.0
    ensures BaseWave(m, 0.0, 0.0, s) == 0.0
  {
  }
}
