/**
 * Colour and screen projection of the CPU demo's grid points: the water
 * colour as a function of height (with foam on the peaks and no clamp), the
 * average colour of a quad, and the one-point perspective projection.
 */
module CpuShading {

  datatype Color = Color(r: real, g: real, b: real)

  const BLACK: Color := Color(0.0, 0.0, 0.0)

  /** One grid sample: its position on screen, its current height and colour. */
  datatype WavePoint = WavePoint(x: real, y: real, z: real, height: real, color: Color)

  /** How strongly height shrinks a point towards the screen origin. */
  const PERSPECTIVE: real := 0.002

  /**
   * The colour of water at height h for amplitude a: a blue-green ramp over
   * the normalised height (h + a) / (2 * a), plus white foam added to all
   * three channels once h exceeds 70% of the amplitude. Nothing is clamped.
   */
  function Shade(h: real, amplitude: real): (c: Color)
    requires amplitude != 0.0
    ensures c.r == 0.0 <==> h <= amplitude * 0.7
  {
    var n := (h + amplitude) / (2.0 * amplitude);
    var r := 0.0;
    var g := 0.2 + n * 0.3;
    var b := 0.4 + n * 0.4;
    if h > amplitude * 0.7 then
      var foam := (h - amplitude * 0.7) / (amplitude * 0.3);
      assert foam * (amplitude * 0.3) == h - amplitude * 0.7;
      Color(r + foam * 0.9, g + foam * 0.9, b + foam * 0.5)
    else
      Color(r, g, b)
  }

  predicate InUnitRange(c: Color)
  {
    0.0 <= c.r <= 1.0 && 0.0 <= c.g <= 1.0 && 0.0 <= c.b <= 1.0
  }

  /** The normalised height lies in [0, 0.85] between the trough -a and the foam line 0.7 * a. */
  lemma NormalizedHeightBounds(h: real, amplitude: real)
    requires amplitude > 0.0 && -amplitude <= h <= amplitude * 0.7
    ensures 0.0 <= (h + amplitude) / (2.0 * amplitude) <= 0.85
  {
    var n := (h + amplitude) / (2.0 * amplitude);
    assert n * (2.0 * amplitude) == h + amplitude;
  }

  /**
   * Below the foam line and above the trough, the colour is a valid display
   * colour with no red: green in [0.2, 0.455] and blue in [0.4, 0.74].
   */
  lemma CalmWaterInRange(h: real, amplitude: real)
    requires amplitude > 0.0 && -amplitude <= h <= amplitude * 0.7
    ensures Shade(h, amplitude).r == 0.0
    ensures 0.2 <= Shade(h, amplitude).g <= 0.455
    ensures 0.4 <= Shade(h, amplitude).b <= 0.74
    ensures InUnitRange(Shade(h, amplitude))
  {
    NormalizedHeightBounds(h, amplitude);
  }

  /** Red appears exactly on foam: the red channel is positive if and only if h > 0.7 * a, and never negative. */
  lemma FoamIffRed(h: real, amplitude: real)
    requires amplitude > 0.0
    ensures Shade(h, amplitude).r >= 0.0
    ensures Shade(h, amplitude).r > 0.0 <==> h > amplitude * 0.7
  {
    if h > amplitude * 0.7 {
      var foam := (h - amplitude * 0.7) / (amplitude * 0.3);
      assert foam * (amplitude * 0.3) == h - amplitude * 0.7;
      assert foam > 0.0;
    }
  }

  /** Division by a positive number keeps order. */
  lemma DivMonotone(u: real, v: real, d: real)
    requires d > 0.0 && u <= v
    ensures u / d <= v / d
  {
    assert (u / d) * d == u && (v / d) * d == v;
  }

  /** Higher water is never darker: every channel grows (weakly) with height. */
  lemma ShadeMonotone(h1: real, h2: real, amplitude: real)
    requires amplitude > 0.0 && h1 <= h2
    ensures Shade(h1, amplitude).r <= Shade(h2, amplitude).r
    ensures Shade(h1, amplitude).g <= Shade(h2, amplitude).g
    ensures Shade(h1, amplitude).b <= Shade(h2, amplitude).b
  {
    DivMonotone(h1 + amplitude, h2 + amplitude, 2.0 * amplitude);
    var t := amplitude * 0.7;
    if h1 > t {
      DivMonotone(h1 - t, h2 - t, amplitude * 0.3);
    } else if h2 > t {
      DivMonotone(0.0, h2 - t, amplitude * 0.3);
    }
  }

  /**
   * The colour is not clamped: at the crest h == a the channels are
   * (0.9, 1.4, 1.3), so green and blue exceed the display range.
   */
  lemma CrestOvershoots(amplitude: real)
    requires amplitude > 0.0
    ensures Shade(amplitude, amplitude) == Color(0.9, 1.4, 1.3)
    ensures !InUnitRange(Shade(amplitude, amplitude))
  {
    assert (amplitude + amplitude) / (2.0 * amplitude) == 1.0;
    assert (amplitude - amplitude * 0.7) / (amplitude * 0.3) == 1.0;
  }

  /** Channel-wise mean of four colours. */
  function AverageColor(c1: Color, c2: Color, c3: Color, c4: Color): (c: Color)
    ensures c1 == c2 == c3 == c4 ==> c == c1
    ensures InUnitRange(c1) && InUnitRange(c2) && InUnitRange(c3) && InUnitRange(c4) ==> InUnitRange(c)
  {
    Color((c1.r + c2.r + c3.r + c4.r) / 4.0,
          (c1.g + c2.g + c3.g + c4.g) / 4.0,
          (c1.b + c2.b + c3.b + c4.b) / 4.0)
  }

  /**
   * Screen position of a grid point: both coordinates scaled by
   * 1 / (1 + height * 0.002), with the height first subtracted from y.
   * Undefined where the scale's denominator vanishes (height == -500).
   */
  function Project(p: WavePoint): (s: (real, real))
    requires 1.0 + p.height * PERSPECTIVE != 0.0
    ensures p.height == 0.0 ==> s.0 == p.x && s.1 == p.y
    ensures s.0 * (1.0 + p.height * PERSPECTIVE) == p.x
    ensures s.1 * (1.0 + p.height * PERSPECTIVE) == p.y - p.height
  {
    var scale := 1.0 / (1.0 + p.height * PERSPECTIVE);
    assert p.height == 0.0 ==> scale == 1.0;
    (p.x * scale, (p.y - p.height) * scale)
  }
}
