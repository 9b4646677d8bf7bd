# Wave simulation: a Dafny model of its discrete core

The repository holds two real-time demos of an animated water surface. The
GPU demo uploads a static grid mesh once and lets a shader displace it; its
`WaveRenderer` keeps a shader clock, the wave parameters and the mouse state.
The CPU demo keeps a 50 x 50 grid of sample points in a `WaveSimulation`
object, recomputes every point's height and colour on each timer tick, and
draws the grid as shaded quads. Keys adjust speed, height and frequency; a
click starts a single ripple that ages and retires.

This project models the discrete, stateful part of both demos:

- `gpu_mesh.dfy` (module `GpuMesh`): the GPU grid constants and the
  closed-form layout of the vertex buffer and the index buffer, with lemmas
  on vertex positions, the per-quad index pattern and index bounds.
- `gpu_renderer.dfy` (module `GpuRenderer`): class `WaveRenderer` with its
  constructor, mesh generation (arrays filled in place with a running
  cursor, proved equal to the closed-form layout), `Update`, the setters, and
  the normalisation of the mouse position into clip space.
- `cpu_field.dfy` (module `CpuField`): the parameter clamps, the one-slot
  ripple and its lifecycle, the per-tick advance of the field state, and the
  height formula with sine, cosine, exponential and square root taken as
  arbitrary functions (a `Math` record).
- `cpu_shading.dfy` (module `CpuShading`): the colour of water as a function
  of height (foam on the peaks, no clamp), the mean colour of a quad, and the
  perspective projection of a point.
- `cpu_simulation.dfy` (module `CpuSimulation`): class `WaveSimulation`
  with the grid as a `seq<seq<WavePoint>>` field. Its methods are `InitGrid`
  (with `std::vector::resize` semantics), `Update`, `CreateMouseWave`, the
  three clamped `Adjust*` methods, and `Render`, the quad traversal.

Floats are modelled as `real`. The grid sizes differ between the demos: 100
for the GPU mesh (`WaveRenderer.h`) and 50 for the CPU grid
(`wave_simple.cpp`).

Two behaviours of the code are worth stating:

- The colour is not clamped to [0, 1]. `CpuShading.CrestOvershoots` shows
  the overshoot at the crest.
- The GPU renderer's `update` advances its clock by `deltaTime` alone. It
  does not multiply by the wave speed; the speed is only handed to the shader.

## Model

| member | source | states |
|---|---|---|
| GpuMesh.VertexComponentAt | wave-simulation/src/WaveRenderer.cpp:28-34 | the three floats written for vertex (x, z) are x*step-1, 0 and z*step-1 |
| GpuMesh.MeshVertices | wave-simulation/src/WaveRenderer.cpp:25-35 | the vertex buffer holds exactly VERTEX_COUNT*3 floats |
| GpuMesh.MeshVertexAt | wave-simulation/src/WaveRenderer.cpp:28-34 | vertex (x, z) starts at offset 3*(z*GRID_SIZE+x), lies inside the buffer and equals (x*step-1, 0, z*step-1) |
| GpuMesh.CoordInRange | wave-simulation/src/WaveRenderer.cpp:28-33 | with step = 2/(GRID_SIZE-1), every grid line lies in [-1, 1]; the first is at -1 and the last at 1 |
| GpuMesh.MeshVerticesInUnitSquare | wave-simulation/src/WaveRenderer.cpp:25-35 | every float of the vertex buffer lies in [-1, 1] and every Y component is 0 |
| GpuMesh.MeshIndices | wave-simulation/src/WaveRenderer.cpp:38-39 | the index buffer holds exactly (GRID_SIZE-1)^2*6 entries |
| GpuMesh.QuadIndices | wave-simulation/src/WaveRenderer.cpp:44-57 | the six indices of quad (x, z), always six; QuadTrianglesWellFormed shows they form two proper triangles over the quad's four corners sharing one diagonal, and MeshQuadAt places them at the quad's offset |
| GpuMesh.IndexEntryAt | wave-simulation/src/WaveRenderer.cpp:44-57 | entry 6*(z*(GRID_SIZE-1)+x)+k of the index buffer is entry k of quad (x, z)'s pattern |
| GpuMesh.MeshQuadAt | wave-simulation/src/WaveRenderer.cpp:42-59 | the six entries at 6*(z*(GRID_SIZE-1)+x) are topLeft, bottomLeft, topRight, topRight, bottomLeft, bottomRight |
| GpuMesh.MeshIndicesInRange | wave-simulation/src/WaveRenderer.cpp:44-47 | every emitted index is below VERTEX_COUNT, so it names an existing vertex |
| GpuMesh.QuadTrianglesWellFormed | wave-simulation/src/WaveRenderer.cpp:44-57 | each quad's two triangles have three distinct corners, share the topRight-bottomLeft diagonal, and use topLeft, its right neighbour, the vertex below and the one below-right |
| GpuRenderer.GenerateVertices | wave-simulation/src/WaveRenderer.cpp:25-35 | the cursor loop fills a fresh array exactly with the reference vertex layout |
| GpuRenderer.WriteQuad | wave-simulation/src/WaveRenderer.cpp:44-57 | six writes at the cursor (at offset 6*(z*(GRID_SIZE-1)+x)) store exactly the reference entries of quad (x, z), advance the cursor by 6 and leave the entries before it unchanged |
| GpuRenderer.GenerateIndices | wave-simulation/src/WaveRenderer.cpp:38-59 | the cursor loop fills a fresh array of (GRID_SIZE-1)^2*6 entries exactly with the reference index layout |
| GpuRenderer.WaveRenderer.GenerateMesh | wave-simulation/src/WaveRenderer.cpp:23-60 | afterwards the vertex and index fields are fresh arrays equal to the reference layouts and indexCount == (GRID_SIZE-1)^2*6; no other field changes |
| GpuRenderer.WaveRenderer.constructor | wave-simulation/src/WaveRenderer.cpp:6-11 | time 0, speed 1, height 0.2, frequency 5, mouse at (0, 0) and not pressed, indexCount 0, both arrays null |
| GpuRenderer.WaveRenderer.Update | wave-simulation/src/WaveRenderer.cpp:102-104 | time grows by deltaTime alone (the speed is not applied); nothing else changes |
| GpuRenderer.WaveRenderer.SetMousePosition | wave-simulation/include/WaveRenderer.h:43 | sets mouseX and mouseY to the arguments and changes nothing else |
| GpuRenderer.WaveRenderer.SetMousePressed | wave-simulation/include/WaveRenderer.h:44 | sets mousePressed to the argument and changes nothing else, so repeating the call changes nothing |
| GpuRenderer.WaveRenderer.SetWaveSpeed | wave-simulation/include/WaveRenderer.h:45 | stores the speed unclamped and changes nothing else |
| GpuRenderer.WaveRenderer.SetWaveHeight | wave-simulation/include/WaveRenderer.h:46 | stores the height unclamped and changes nothing else |
| GpuRenderer.WaveRenderer.SetWaveFrequency | wave-simulation/include/WaveRenderer.h:47 | stores the frequency unclamped and changes nothing else |
| GpuRenderer.NormalizeMouse | wave-simulation/src/WaveRenderer.cpp:155-156 | x = 0 maps to -1 and x = width to 1; y is flipped: y = 0 maps to 1 and y = height to -1 |
| GpuRenderer.MouseRoundTrip | wave-simulation/src/WaveRenderer.cpp:155-156 | the window position is recovered exactly from the normalised one |
| GpuRenderer.NormalizeMouseOrder | wave-simulation/src/WaveRenderer.cpp:155-156 | on a positive-size window, normalising keeps the order of x and reverses the order of y, both ways |
| GpuRenderer.WaveRenderer.MousePosUniform | wave-simulation/src/WaveRenderer.cpp:155-156 | the mousePos uniform denormalises back to the stored mouse position |
| GpuRenderer.WaveRenderer.MousePressedUniform | wave-simulation/src/WaveRenderer.cpp:157 | the mousePressed uniform is 1 exactly when pressed and 0 exactly when not |
| CpuField.Clamp | wave-simulation-simple/wave_simple.cpp:154-156 | max(lo, min(hi, v)) lies in [lo, hi], equals v inside the range, hi above it and lo below it |
| CpuField.ClampIdempotent | wave-simulation-simple/wave_simple.cpp:154-156 | a second clamp to the same range changes nothing |
| CpuField.AdjustedSpeed | wave-simulation-simple/wave_simple.cpp:154 | the new speed lies in [0.1, 5.0] for any delta, and is speed + delta when that is in range |
| CpuField.AdjustedHeight | wave-simulation-simple/wave_simple.cpp:155 | the new amplitude lies in [5, 100] for any delta, and is amplitude + delta when that is in range |
| CpuField.AdjustedFrequency | wave-simulation-simple/wave_simple.cpp:156 | the new frequency lies in [0.02, 0.5] for any delta, and is frequency + delta when that is in range |
| CpuField.AdjustHeightSaturates | wave-simulation-simple/wave_simple.cpp:155 | from any amplitude in range, +1000 gives exactly 100 and -1000 exactly 5 |
| CpuField.NewRipple | wave-simulation-simple/wave_simple.cpp:147-152 | a new ripple is active with age 0, so it satisfies the ripple invariant |
| CpuField.AgeRipple | wave-simulation-simple/wave_simple.cpp:56-62 | one tick keeps the ripple's origin, never revives an inactive slot (an inactive slot is returned unchanged), a ripple still running afterwards has age at most 10, and a ripple retired by the tick has age 0 |
| CpuField.AgeRippleKeepsInvariant | wave-simulation-simple/wave_simple.cpp:56-62 | for dt >= 0 one tick keeps "inactive means age 0, active means age in [0, 10]" and keeps the origin |
| CpuField.RetiredStaysRetired | wave-simulation-simple/wave_simple.cpp:56-62 | an inactive ripple is unchanged by any number of ticks |
| CpuField.RippleAgesLinearly | wave-simulation-simple/wave_simple.cpp:56-58 | while the accumulated age stays at most 10, after n ticks the ripple is active with age increased by n*dt*5 |
| CpuField.RippleRetiresOnce | wave-simulation-simple/wave_simple.cpp:56-62 | the ripple is active after n-1 ticks and inactive with age 0 after n ticks and every later tick, where n is the first tick whose accumulated age exceeds 10 |
| CpuField.Advance | wave-simulation-simple/wave_simple.cpp:55-62 | a tick leaves speed, amplitude and frequency unchanged |
| CpuField.AdvanceMonotone | wave-simulation-simple/wave_simple.cpp:55-62 | with dt >= 0 and a positive speed the clock never runs backwards, and the ripple invariant is kept |
| CpuField.Height | wave-simulation-simple/wave_simple.cpp:69-79 | without an active ripple the height is the base wave alone |
| CpuField.HeightBounded | wave-simulation-simple/wave_simple.cpp:69-79 | under the same assumptions on the library functions and a non-negative amplitude a, the height lies in [-0.8a - 50, 0.8a + 50] |
| CpuField.RetiredRippleLeavesNoTrace | wave-simulation-simple/wave_simple.cpp:56-79 | on the tick a ripple retires, the height everywhere returns to the base wave |
| CpuField.NewRippleFlatAtOrigin | wave-simulation-simple/wave_simple.cpp:73-77 | a new ripple contributes 0 at its own origin, given sin(0) = sqrt(0) = 0 |
| CpuField.BaseWave | wave-simulation-simple/wave_simple.cpp:69-70 | the two weighted travelling waves scaled by the amplitude, so a zero amplitude gives a flat surface |
| CpuField.BaseWaveBounded | wave-simulation-simple/wave_simple.cpp:69-70 | when sine and cosine stay in [-1, 1] and the amplitude a is non-negative, the base wave stays within [-0.8a, 0.8a] |
| CpuField.RippleWave | wave-simulation-simple/wave_simple.cpp:73-77 | an inactive ripple contributes nothing |
| CpuField.RippleWaveBounded | wave-simulation-simple/wave_simple.cpp:73-77 | with sine in [-1, 1], exp of a non-positive number in [0, 1] and non-negative square roots, the ripple adds at most 50 in either direction |
| CpuField.BaseWaveFlatAtStart | wave-simulation-simple/wave_simple.cpp:69-70 | at time 0 the base wave is 0 at the origin, given sin(0) = 0 |
| CpuShading.NormalizedHeightBounds | wave-simulation-simple/wave_simple.cpp:82 | between the trough -a and the foam line 0.7a the normalised height lies in [0, 0.85] |
| CpuShading.CalmWaterInRange | wave-simulation-simple/wave_simple.cpp:82-93 | below the foam line (down to -a) red is 0, green lies in [0.2, 0.455], blue in [0.4, 0.74], all in [0, 1] |
| CpuShading.FoamIffRed | wave-simulation-simple/wave_simple.cpp:83-93 | red is never negative, and it is positive if and only if h > 0.7 * amplitude |
| CpuShading.Shade | wave-simulation-simple/wave_simple.cpp:82-93 | for any non-zero amplitude the red channel is 0 exactly when h <= 0.7a, that is, red comes only from foam |
| CpuShading.ShadeMonotone | wave-simulation-simple/wave_simple.cpp:82-93 | no channel decreases as height increases |
| CpuShading.CrestOvershoots | wave-simulation-simple/wave_simple.cpp:82-95 | at h = amplitude the colour is (0.9, 1.4, 1.3): unclamped, outside [0, 1] |
| CpuShading.AverageColor | wave-simulation-simple/wave_simple.cpp:128-135 | the mean of four equal colours is that colour; the mean of in-range colours is in range |
| CpuShading.Project | wave-simulation-simple/wave_simple.cpp:110-114 | a flat point projects to itself; scaled back by 1 + 0.002*height the result gives x and y - height |
| CpuSimulation.Resize | wave-simulation-simple/wave_simple.cpp:38-44 | vector resize: length n, existing elements kept, new ones equal to the fill value |
| CpuSimulation.Resample | wave-simulation-simple/wave_simple.cpp:64-97 | a point's x, y and z never change in an update; its height is the height formula at (x, y) |
| CpuSimulation.ResamplePoint | wave-simulation-simple/wave_simple.cpp:66-95 | the step-by-step height and colour computation (foam added on peaks) agrees with Resample |
| CpuSimulation.ResampleRow | wave-simulation-simple/wave_simple.cpp:65-96 | the inner loop returns a row of the same length in which every point is Resample of the old point at that column |
| CpuSimulation.QuadSlotsTile | wave-simulation-simple/wave_simple.cpp:102-103 | each of the (GRID_SIZE-1)^2 draw slots belongs to exactly one in-bounds cell |
| CpuSimulation.WaveSimulation.constructor | wave-simulation-simple/wave_simple.cpp:32-35 | time 0, speed 1, amplitude 30, frequency 0.1, no ripple; a 50x50 flat, black grid at its layout positions; all invariants hold |
| CpuSimulation.WaveSimulation.InitGrid | wave-simulation-simple/wave_simple.cpp:37-52 | a GRID_SIZE x GRID_SIZE grid with x = startX + j*spacing, y = startY + i*spacing, z = height = 0; existing colours kept, new ones black |
| CpuSimulation.WaveSimulation.Update | wave-simulation-simple/wave_simple.cpp:54-98 | the field state is advanced by one tick and every point is resampled in the new state; the layout and, for dt >= 0, the ripple invariant are kept |
| CpuSimulation.WaveSimulation.ResampleGrid | wave-simulation-simple/wave_simple.cpp:64-97 | every point of the grid is resampled in the current state and only the grid changes; x and y stay put |
| CpuSimulation.WaveSimulation.CreateMouseWave | wave-simulation-simple/wave_simple.cpp:147-152 | the single ripple slot is replaced by an active ripple at (x, y) with age 0; nothing else changes |
| CpuSimulation.WaveSimulation.AdjustSpeed | wave-simulation-simple/wave_simple.cpp:154 | the speed becomes the clamped sum, always in [0.1, 5.0]; nothing else changes |
| CpuSimulation.WaveSimulation.AdjustHeight | wave-simulation-simple/wave_simple.cpp:155 | the amplitude becomes the clamped sum, always in [5, 100]; nothing else changes |
| CpuSimulation.WaveSimulation.AdjustFrequency | wave-simulation-simple/wave_simple.cpp:156 | the frequency becomes the clamped sum, always in [0.02, 0.5]; nothing else changes |
| CpuSimulation.WaveSimulation.Render | wave-simulation-simple/wave_simple.cpp:100-145 | exactly (GRID_SIZE-1)^2 cells, row by row; cell (i, j) uses points (i, j), (i, j+1), (i+1, j) and (i+1, j+1) and their mean colour |

## Left out

- The height formula's `sin`, `cos`, `exp`, `sqrt` and `pow`: they are parameters (`CpuField.Math`), so nothing is proved about what they compute; the height bounds assume only the ranges named in `CpuField.MathBounded`. `pow(d, 2)` is written as `d * d`.
- IEEE float rounding: every `float` is a `real`. In floats, `x * step - 1` for the last grid line need not be exactly 1.
- Unsigned index type: indices are modelled as `int`. `GpuMesh.MeshIndicesInRange` shows that every index is below 10000, so none wraps.
- `setupBuffers`, `initialize`, the destructor, the VAO/VBO/EBO handles and the shader manager: graphics-library side effects. Calling `GenerateMesh` twice leaks the old arrays in the source; in the model they just become unreachable.
- The projection and view matrices, the camera orbit and the uniforms other than the mouse position and the mouse-button flag: float trigonometry that feeds the shader.
- `ShaderManager` and `main.cpp`: file reading, shader compilation and the event loop. The GPU demo's key handling clamps values before calling the unclamped setters; that clamping is not modelled.
- `checkGLError` and `loadWaveShaders`: declared in `WaveRenderer.h` but not defined in the files modelled here.
- `getSpeed`, `getHeight`, `getFrequency`: plain accessors for the text overlay; the model's fields are read directly.
- CpuSimulation.WaveSimulation.Render: returns the cells it draws (corner points and mean colour) instead of issuing drawing calls. The two filled triangles (p1, p2, p3) and (p2, p3, p4) and the two wireframe lines per cell are not emitted, and `Project` is not applied to the corners inside `Render`.
- CpuShading.Project: requires `1 + 0.002 * height != 0`. At height -500 the float division gives an infinity, which the model does not represent.
- CpuShading.Shade: requires a non-zero amplitude, since a real division by zero is undefined. The class invariant keeps the amplitude at 5 or above.
- CpuShading.AverageColor: converting a colour to the graphics library's format and back is taken as the identity (the library stores float channels).
- CpuSimulation.WaveSimulation.constructor: the source leaves the ripple origin uninitialised. The model's constructor states nothing about it.
- GpuRenderer.NormalizeMouse: requires a non-zero window size.
