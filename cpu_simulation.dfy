/**
 * The CPU demo's simulation object: a GRID_SIZE x GRID_SIZE grid of sample
 * points laid out once on screen, the field state (time, speed, amplitude,
 * frequency, one ripple slot) that input events and timer ticks update in
 * place, and the quad traversal that turns the grid into draw calls.
 */
module CpuSimulation {
  import opened CpuField
  import opened CpuShading

  const SCREEN_WIDTH: int := 1280
  const SCREEN_HEIGHT: int := 720
  /** Sample points along each side of the CPU grid. */
  const GRID_SIZE: nat := 50
  /** Screen distance between neighbouring sample points. */
  const SPACING: real := 15.0
  /** Left edge of the grid: the grid is centred (screen half-width is an integer division). */
  const START_X: real := (SCREEN_WIDTH / 2) as real - (GRID_SIZE as real * SPACING) / 2.0
  /** Top edge of the grid. */
  const START_Y: real := (SCREEN_HEIGHT / 2) as real - (GRID_SIZE as real * SPACING) / 2.0

  /** The value a vector default-constructs on resize: all zeros. */
  const ZERO_POINT: WavePoint := WavePoint(0.0, 0.0, 0.0, 0.0, BLACK)

  /** Screen x of grid column j. */
  function GridX(j: int): real
  {
    START_X + j as real * SPACING
  }

  /** Screen y of grid row i. */
  function GridY(i: int): real
  {
    START_Y + i as real * SPACING
  }

  /**
   * std::vector::resize: keeps the first n elements, and appends copies of
   * the default value when the vector is shorter than n.
   */
  function Resize<T>(s: seq<T>, n: nat, fill: T): (r: seq<T>)
    ensures |r| == n
    ensures forall k :: 0 <= k < n && k < |s| ==> r[k] == s[k]
    ensures forall k :: |s| <= k < n ==> r[k] == fill
  {
    if n <= |s| then s[..n] else s + seq(n - |s|, _ => fill)
  }

  /** The colour a point keeps through initGrid: its old one if the grid had it, else the default black. */
  function PriorColor(g: seq<seq<WavePoint>>, i: int, j: int): Color
  {
    if 0 <= i < |g| && 0 <= j < |g[i]| then g[i][j].color else BLACK
  }

  /** Point (i, j) as initGrid leaves it: at its layout position, flat, colour kept. */
  function InitialPoint(g: seq<seq<WavePoint>>, i: int, j: int): WavePoint
  {
    WavePoint(GridX(j), GridY(i), 0.0, 0.0, PriorColor(g, i, j))
  }

  /**
   * A grid point after one update in field state s: same position, new
   * height from the height formula, colour from that height.
   */
  function Resample(m: Math, p: WavePoint, s: FieldState): (q: WavePoint)
    requires s.amplitude != 0.0
    ensures q.x == p.x && q.y == p.y && q.z == p.z
    ensures q.height == Height(m, p.x, p.y, s)
  {
    var h := Height(m, p.x, p.y, s);
    p.(height := h, color := Shade(h, s.amplitude))
  }

  /**
   * The body of update's grid loop for one point: the height of the field
   * at the point, then the colour built up channel by channel, foam added
   * on peaks. It deliberately mirrors the loop body's in-place
   * accumulation (r, g and b start from the ramp and foam is added with +=)
   * rather than calling Shade, so that its agreement with Resample, and
   * hence with Shade, is proved rather than taken by construction.
   */
  method ResamplePoint(m: Math, p: WavePoint, s: FieldState) returns (q: WavePoint)
    requires s.amplitude != 0.0
    ensures q == Resample(m, p, s)
  {
    var height := Height(m, p.x, p.y, s);
    var waveHeight := s.amplitude;

    var normalizedHeight := (height + waveHeight) / (2.0 * waveHeight);
    var r := 0.0;
    var g := 0.2 + normalizedHeight * 0.3;
    var b := 0.4 + normalizedHeight * 0.4;
    if height > waveHeight * 0.7 {
      var foam := (height - waveHeight * 0.7) / (waveHeight * 0.3);
      r := r + foam * 0.9;
      g := g + foam * 0.9;
      b := b + foam * 0.5;
    }
    q := p.(height := height, color := Color(r, g, b));
  }

  /** The inner loop of update's grid pass: every point of one row resampled in state s, in column order. */
  method ResampleRow(m: Math, row: seq<WavePoint>, s: FieldState) returns (row': seq<WavePoint>)
    requires s.amplitude != 0.0
    ensures |row'| == |row|
    ensures forall l :: 0 <= l < |row| ==> row'[l] == Resample(m, row[l], s)
  {
    row' := row;
    var j := 0;
    while j < |row|
      invariant 0 <= j <= |row| && |row'| == |row|
      invariant forall l :: 0 <= l < j ==> row'[l] == Resample(m, row[l], s)
      invariant forall l :: j <= l < |row| ==> row'[l] == row[l]
    {
      var p := ResamplePoint(m, row'[j], s);
      row' := row'[j := p];
      j := j + 1;
    }
  }

  /** One drawn grid cell: its four corners and the colour it is filled with. */
  datatype Quad = Quad(p1: WavePoint, p2: WavePoint, p3: WavePoint, p4: WavePoint, color: Color)

  /** The cell with corners p1 = (i, j), p2 = (i, j+1), p3 = (i+1, j), p4 = (i+1, j+1), filled with their mean colour. */
  function ShadedQuad(p1: WavePoint, p2: WavePoint, p3: WavePoint, p4: WavePoint): Quad
  {
    Quad(p1, p2, p3, p4, AverageColor(p1.color, p2.color, p3.color, p4.color))
  }

  /** Position of cell (i, j) in the order render draws cells: row by row. */
  function QuadSlot(i: int, j: int): int
  {
    i * (GRID_SIZE - 1) + j
  }

  /**
   * The drawing order visits each cell exactly once: every slot below
   * (GRID_SIZE - 1)^2 belongs to exactly one in-bounds cell.
   */
  lemma QuadSlotsTile(k: int)
    requires 0 <= k < (GRID_SIZE - 1) * (GRID_SIZE - 1)
    ensures var i, j := k / (GRID_SIZE - 1), k % (GRID_SIZE - 1);
      0 <= i < GRID_SIZE - 1 && 0 <= j < GRID_SIZE - 1 && QuadSlot(i, j) == k
    ensures forall i, j :: 0 <= i < GRID_SIZE - 1 && 0 <= j < GRID_SIZE - 1 && QuadSlot(i, j) == k ==>
      i == k / (GRID_SIZE - 1) && j == k % (GRID_SIZE - 1)
  {
    forall i, j | 0 <= i < GRID_SIZE - 1 && 0 <= j < GRID_SIZE - 1 && QuadSlot(i, j) == k
      ensures i == k / (GRID_SIZE - 1) && j == k % (GRID_SIZE - 1)
    {
      assert (i * (GRID_SIZE - 1) + j) / (GRID_SIZE - 1) == i;
    }
  }

  class WaveSimulation {
    var grid: seq<seq<WavePoint>>
    var time: real
    var waveSpeed: real
    var waveHeight: real
    var waveFrequency: real
    var mouseWaveX: real
    var mouseWaveY: real
    var mouseWaveTime: real
    var mouseWaveActive: bool

    /** The grid is GRID_SIZE x GRID_SIZE and the tunables lie in their clamp ranges. */
    ghost predicate Valid()
      reads this`grid, this`waveSpeed, this`waveHeight, this`waveFrequency
    {
      && |grid| == GRID_SIZE
      && (forall i :: 0 <= i < |grid| ==> |grid[i]| == GRID_SIZE)
      && ParamsInRange(waveSpeed, waveHeight, waveFrequency)
    }

    /** Every point sits at its layout position (column j at GridX(j), row i at GridY(i)). */
    ghost predicate LayoutIntact()
      reads this`grid
    {
      forall i, j :: 0 <= i < |grid| && 0 <= j < |grid[i]| ==>
        grid[i][j].x == GridX(j) && grid[i][j].y == GridY(i)
    }

    /** The field state the height formula reads. */
    function State(): FieldState
      reads this`time, this`waveSpeed, this`waveHeight, this`waveFrequency
      reads this`mouseWaveX, this`mouseWaveY, this`mouseWaveTime, this`mouseWaveActive
    {
      FieldState(time, waveSpeed, waveHeight, waveFrequency,
                 Ripple(mouseWaveX, mouseWaveY, mouseWaveTime, mouseWaveActive))
    }

    /** Time 0, speed 1, amplitude 30, frequency 0.1, no ripple, and a freshly laid-out flat grid. */
    constructor ()
      ensures Valid() && LayoutIntact() && RippleInvariant(State().ripple)
      ensures time == 0.0 && waveSpeed == 1.0 && waveHeight == 30.0 && waveFrequency == 0.1
      ensures mouseWaveTime == 0.0 && !mouseWaveActive
      ensures forall i, j :: 0 <= i < GRID_SIZE && 0 <= j < GRID_SIZE ==>
        grid[i][j] == WavePoint(GridX(j), GridY(i), 0.0, 0.0, BLACK)
    {
      time, waveSpeed, waveHeight, waveFrequency := 0.0, 1.0, 30.0, 0.1;
      mouseWaveTime, mouseWaveActive := 0.0, false;
      grid := [];
      new;
      InitGrid();
    }

    /**
     * Resizes the grid to GRID_SIZE x GRID_SIZE and places every point at its
     * layout position with z and height 0. Colours are not touched: points
     * that already existed keep theirs, new ones are black.
     */
    method InitGrid()
      modifies this`grid
      ensures |grid| == GRID_SIZE
      ensures forall i :: 0 <= i < GRID_SIZE ==> |grid[i]| == GRID_SIZE
      ensures forall i, j :: 0 <= i < GRID_SIZE && 0 <= j < GRID_SIZE ==>
        grid[i][j] == InitialPoint(old(grid), i, j)
      ensures LayoutIntact()
    {
      grid := Resize(grid, GRID_SIZE, []);
      ghost var rows := grid;
      var i := 0;
      while i < GRID_SIZE
        invariant 0 <= i <= GRID_SIZE && |grid| == GRID_SIZE
        invariant forall k :: 0 <= k < i ==> |grid[k]| == GRID_SIZE
        invariant forall k, l :: 0 <= k < i && 0 <= l < GRID_SIZE ==> grid[k][l] == InitialPoint(old(grid), k, l)
        invariant forall k :: i <= k < GRID_SIZE ==> grid[k] == rows[k]
      {
        grid := grid[i := Resize(grid[i], GRID_SIZE, ZERO_POINT)];
        ghost var row := grid[i];
        var j := 0;
        while j < GRID_SIZE
          invariant 0 <= j <= GRID_SIZE && |grid| == GRID_SIZE && |grid[i]| == GRID_SIZE
          invariant forall k :: 0 <= k < i ==> |grid[k]| == GRID_SIZE
          invariant forall k, l :: 0 <= k < i && 0 <= l < GRID_SIZE ==> grid[k][l] == InitialPoint(old(grid), k, l)
          invariant forall k :: i < k < GRID_SIZE ==> grid[k] == rows[k]
          invariant forall l :: 0 <= l < j ==> grid[i][l] == InitialPoint(old(grid), i, l)
          invariant forall l :: j <= l < GRID_SIZE ==> grid[i][l] == row[l]
        {
          grid := grid[i := grid[i][j := grid[i][j].(x := START_X + j as real * SPACING,
                                                      y := START_Y + i as real * SPACING,
                                                      z := 0.0,
                                                      height := 0.0)]];
          j := j + 1;
        }
        i := i + 1;
      }
    }

    /**
     * One timer tick: the field state advances (time by dt * speed, the
     * ripple ages and may retire), then every point gets the height of the
     * advanced field at its position and the colour of that height. Point
     * positions and the parameters do not change.
     */
    method Update(m: Math, dt: real)
      requires Valid()
      modifies this`time, this`mouseWaveTime, this`mouseWaveActive, this`grid
      ensures Valid()
      ensures State() == Advance(old(State()), dt)
      ensures forall i, j :: 0 <= i < GRID_SIZE && 0 <= j < GRID_SIZE ==>
        grid[i][j] == Resample(m, old(grid)[i][j], State())
      ensures old(LayoutIntact()) ==> LayoutIntact()
      ensures dt >= 0.0 && old(RippleInvariant(State().ripple)) ==> RippleInvariant(State().ripple)
    {
      if dt >= 0.0 && RippleInvariant(State().ripple) {
        AgeRippleKeepsInvariant(State().ripple, dt);
      }
      time := time + dt * waveSpeed;
      if mouseWaveActive {
        mouseWaveTime := mouseWaveTime + dt * 5.0;
        if mouseWaveTime > 10.0 {
          mouseWaveActive := false;
          mouseWaveTime := 0.0;
        }
      }
      ghost var advanced := State();
      assert advanced == Advance(old(State()), dt);
      ResampleGrid(m);
      assert State() == advanced;
    }

    /**
     * Update's grid pass: every point is resampled in the current field
     * state, row by row. Only the grid changes.
     */
    method ResampleGrid(m: Math)
      requires Valid()
      modifies this`grid
      ensures Valid()
      ensures forall i, j :: 0 <= i < GRID_SIZE && 0 <= j < GRID_SIZE ==>
        grid[i][j] == Resample(m, old(grid)[i][j], State())
      ensures old(LayoutIntact()) ==> LayoutIntact()
    {
      var s := State();
      var i := 0;
      while i < GRID_SIZE
        invariant 0 <= i <= GRID_SIZE && |grid| == GRID_SIZE
        invariant forall k :: 0 <= k < GRID_SIZE ==> |grid[k]| == GRID_SIZE
        invariant forall k, l :: 0 <= k < i && 0 <= l < GRID_SIZE ==> grid[k][l] == Resample(m, old(grid)[k][l], s)
        invariant forall k :: i <= k < GRID_SIZE ==> grid[k] == old(grid)[k]
      {
        var row := ResampleRow(m, grid[i], s);
        grid := grid[i := row];
        i := i + 1;
      }
      if old(LayoutIntact()) {
        forall k, l | 0 <= k < |grid| && 0 <= l < |grid[k]|
          ensures grid[k][l].x == GridX(l) && grid[k][l].y == GridY(k)
        {
          assert grid[k][l] == Resample(m, old(grid)[k][l], s);
        }
      }
    }

    /** Starts a ripple at (x, y), replacing whatever ripple was running: there is one slot. */
    method CreateMouseWave(x: real, y: real)
      modifies this`mouseWaveX, this`mouseWaveY, this`mouseWaveTime, this`mouseWaveActive
      ensures State() == old(State()).(ripple := NewRipple(x, y))
      ensures RippleInvariant(State().ripple)
    {
      mouseWaveX := x;
      mouseWaveY := y;
      mouseWaveTime := 0.0;
      mouseWaveActive := true;
    }

    /** Adds delta to the speed and clamps to [0.1, 5]; nothing else changes. */
    method AdjustSpeed(delta: real)
      modifies this`waveSpeed
      ensures waveSpeed == AdjustedSpeed(old(waveSpeed), delta)
      ensures SPEED_MIN <= waveSpeed <= SPEED_MAX
      ensures old(Valid()) ==> Valid()
    {
      waveSpeed := Clamp(SPEED_MIN, SPEED_MAX, waveSpeed + delta);
    }

    /** Adds delta to the amplitude and clamps to [5, 100]; nothing else changes. */
    method AdjustHeight(delta: real)
      modifies this`waveHeight
      ensures waveHeight == AdjustedHeight(old(waveHeight), delta)
      ensures HEIGHT_MIN <= waveHeight <= HEIGHT_MAX
      ensures old(Valid()) ==> Valid()
    {
      waveHeight := Clamp(HEIGHT_MIN, HEIGHT_MAX, waveHeight + delta);
    }

    /** Adds delta to the frequency and clamps to [0.02, 0.5]; nothing else changes. */
    method AdjustFrequency(delta: real)
      modifies this`waveFrequency
      ensures waveFrequency == AdjustedFrequency(old(waveFrequency), delta)
      ensures FREQUENCY_MIN <= waveFrequency <= FREQUENCY_MAX
      ensures old(Valid()) ==> Valid()
    {
      waveFrequency := Clamp(FREQUENCY_MIN, FREQUENCY_MAX, waveFrequency + delta);
    }

    /**
     * The quad traversal of render: the (GRID_SIZE - 1)^2 cells row by row,
     * each with its in-bounds corner points (i, j), (i, j+1), (i+1, j),
     * (i+1, j+1) and their mean colour. Changes nothing.
     */
    method Render() returns (frame: seq<Quad>)
      requires Valid()
      ensures |frame| == (GRID_SIZE - 1) * (GRID_SIZE - 1)
      ensures forall i, j {:trigger QuadSlot(i, j)} :: 0 <= i < GRID_SIZE - 1 && 0 <= j < GRID_SIZE - 1 ==>
        frame[QuadSlot(i, j)] == ShadedQuad(grid[i][j], grid[i][j + 1], grid[i + 1][j], grid[i + 1][j + 1])
    {
      frame := [];
      var i := 0;
      while i < GRID_SIZE - 1
        invariant 0 <= i <= GRID_SIZE - 1
        invariant |frame| == QuadSlot(i, 0)
        invariant forall k, l {:trigger QuadSlot(k, l)} :: 0 <= k < i && 0 <= l < GRID_SIZE - 1 ==>
          frame[QuadSlot(k, l)] == ShadedQuad(grid[k][l], grid[k][l + 1], grid[k + 1][l], grid[k + 1][l + 1])
      {
        var j := 0;
        while j < GRID_SIZE - 1
          invariant 0 <= j <= GRID_SIZE - 1
          invariant |frame| == QuadSlot(i, j)
          invariant forall k, l {:trigger QuadSlot(k, l)} :: 0 <= k < i && 0 <= l < GRID_SIZE - 1 ==>
            frame[QuadSlot(k, l)] == ShadedQuad(grid[k][l], grid[k][l + 1], grid[k + 1][l], grid[k + 1][l + 1])
          invariant forall l :: 0 <= l < j ==>
            frame[QuadSlot(i, l)] == ShadedQuad(grid[i][l], grid[i][l + 1], grid[i + 1][l], grid[i + 1][l + 1])
        {
          var p1 := grid[i][j];
          var p2 := grid[i][j + 1];
          var p3 := grid[i + 1][j];
          var p4 := grid[i + 1][j + 1];
          var color := AverageColor(p1.color, p2.color, p3.color, p4.color);
          frame := frame + [Quad(p1, p2, p3, p4, color)];
          j := j + 1;
        }
        i := i + 1;
      }
    }
  }
}
