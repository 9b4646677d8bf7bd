/**
 * The GPU wave renderer's own state: the mesh buffers it fills, the elapsed
 * time it advances, the wave parameters and mouse state it forwards to the
 * shader, and the normalisation of the mouse position into clip space.
 * Graphics-library handles and calls are not part of this model.
 */
module GpuRenderer {
  import opened GpuMesh

  /**
   * Mouse position in window pixels mapped to [-1, 1] x [-1, 1], with the
   * vertical axis flipped (window y grows downwards, clip-space y upwards).
   */
  function NormalizeMouse(mouseX: real, mouseY: real, screenWidth: int, screenHeight: int): (p: (real, real))
    requires screenWidth != 0 && screenHeight != 0
    ensures mouseX == 0.0 ==> p.0 == -1.0
    ensures mouseX == screenWidth as real ==> p.0 == 1.0
    ensures mouseY == 0.0 ==> p.1 == 1.0
    ensures mouseY == screenHeight as real ==> p.1 == -1.0
  {
    var w, h := screenWidth as real, screenHeight as real;
    assert w / w == 1.0 && h / h == 1.0;
    ((mouseX / w) * 2.0 - 1.0, (1.0 - mouseY / h) * 2.0 - 1.0)
  }

  /** Inverse of NormalizeMouse: the window position that maps to clip-space point p. */
  function DenormalizeMouse(p: (real, real), screenWidth: int, screenHeight: int): (m: (real, real))
    requires screenWidth != 0 && screenHeight != 0
  {
    ((p.0 + 1.0) / 2.0 * screenWidth as real,
     (1.0 - (p.1 + 1.0) / 2.0) * screenHeight as real)
  }

  /** Normalising a window position loses nothing: it can be recovered exactly. */
  lemma MouseRoundTrip(mouseX: real, mouseY: real, screenWidth: int, screenHeight: int)
    requires screenWidth != 0 && screenHeight != 0
    ensures DenormalizeMouse(NormalizeMouse(mouseX, mouseY, screenWidth, screenHeight), screenWidth, screenHeight)
         == (mouseX, mouseY)
  {
    var w, h := screenWidth as real, screenHeight as real;
    var a, b := mouseX / w, mouseY / h;
    assert a * w == mouseX && b * h == mouseY;
    var p := NormalizeMouse(mouseX, mouseY, screenWidth, screenHeight);
    assert p == (a * 2.0 - 1.0, (1.0 - b) * 2.0 - 1.0);
    assert (p.0 + 1.0) / 2.0 == a;
    assert 1.0 - (p.1 + 1.0) / 2.0 == b;
    var m := DenormalizeMouse(p, screenWidth, screenHeight);
    assert m.0 == a * w;
    assert m.1 == b * h;
  }

  /**
   * On a window of positive size, moving the mouse right moves the point right
   * and moving it down moves the point down in clip space (the Y flip), and
   * conversely.
   */
  lemma NormalizeMouseOrder(x1: real, y1: real, x2: real, y2: real, screenWidth: int, screenHeight: int)
    requires screenWidth > 0 && screenHeight > 0
    ensures var p1, p2 := NormalizeMouse(x1, y1, screenWidth, screenHeight), NormalizeMouse(x2, y2, screenWidth, screenHeight);
      && (x1 <= x2 <==> p1.0 <= p2.0)
      && (y1 <= y2 <==> p1.1 >= p2.1)
  {
    var w, h := screenWidth as real, screenHeight as real;
    assert x1 <= x2 <==> x1 / w <= x2 / w;
    assert y1 <= y2 <==> y1 / h <= y2 / h;
  }

  /**
   * First half of the renderer's mesh generation: a fresh vertex buffer
   * filled row by row (z outer, x inner) with a running cursor, three floats
   * per vertex.
   */
  method GenerateVertices() returns (verts: array<real>)
    ensures fresh(verts)
    ensures verts[..] == MeshVertices()
  {
    verts := new real[VERTEX_COUNT * 3];
    var idx := 0;
    var z := 0;
    while z < GRID_SIZE
      invariant 0 <= z <= GRID_SIZE
      invariant idx == VertexOffset(0, z)
      invariant forall i :: 0 <= i < idx ==> verts[i] == VertexComponent(i)
    {
      var x := 0;
      while x < GRID_SIZE
        invariant 0 <= x <= GRID_SIZE
        invariant idx == VertexOffset(x, z)
        invariant forall i :: 0 <= i < idx ==> verts[i] == VertexComponent(i)
      {
        VertexComponentAt(x, z);
        verts[idx] := Coord(x);
        idx := idx + 1;
        verts[idx] := 0.0;
        idx := idx + 1;
        verts[idx] := Coord(z);
        idx := idx + 1;
        x := x + 1;
      }
      z := z + 1;
    }
  }

  /**
   * The body of the index loop for quad (x, z): six writes at the cursor,
   * first triangle (topLeft, bottomLeft, topRight), then the second
   * (topRight, bottomLeft, bottomRight); returns the advanced cursor.
   */
  method WriteQuad(inds: array<int>, start: int, x: int, z: int) returns (idx: int)
    requires 0 <= x < CELLS && 0 <= z < CELLS
    requires start == QuadOffset(x, z) && start + 6 <= inds.Length
    modifies inds
    ensures idx == start + 6
    ensures forall i :: start <= i < idx ==> inds[i] == IndexEntry(i)
    ensures forall i :: 0 <= i < start ==> inds[i] == old(inds[i])
  {
    QuadEntries(x, z);
    var topLeft := z * GRID_SIZE + x;
    var topRight := topLeft + 1;
    var bottomLeft := (z + 1) * GRID_SIZE + x;
    var bottomRight := bottomLeft + 1;
    idx := start;

    inds[idx] := topLeft;
    idx := idx + 1;
    inds[idx] := bottomLeft;
    idx := idx + 1;
    inds[idx] := topRight;
    idx := idx + 1;

    inds[idx] := topRight;
    idx := idx + 1;
    inds[idx] := bottomLeft;
    idx := idx + 1;
    inds[idx] := bottomRight;
    idx := idx + 1;
  }

  /**
   * Second half of the renderer's mesh generation: a fresh index buffer of
   * (GRID_SIZE - 1)^2 * 6 entries, each quad written as two triangles with a
   * running cursor.
   */
  method GenerateIndices() returns (inds: array<int>)
    ensures fresh(inds)
    ensures inds.Length == INDEX_COUNT
    ensures inds[..] == MeshIndices()
  {
    inds := new int[CELLS * CELLS * 6];
    var idx := 0;
    var z := 0;
    while z < CELLS
      invariant 0 <= z <= CELLS
      invariant idx == QuadOffset(0, z)
      invariant forall i :: 0 <= i < idx ==> inds[i] == IndexEntry(i)
    {
      var x := 0;
      while x < CELLS
        invariant 0 <= x <= CELLS
        invariant idx == QuadOffset(x, z)
        invariant forall i :: 0 <= i < idx ==> inds[i] == IndexEntry(i)
      {
        idx := WriteQuad(inds, idx, x, z);
        x := x + 1;
      }
      z := z + 1;
    }
  }

  class WaveRenderer {
    /** Vertex buffer (three floats per vertex); null until the mesh is generated. */
    var vertices: array?<real>
    /** Index buffer (six entries per quad); null until the mesh is generated. */
    var indices: array?<int>
    var indexCount: int

    var time: real
    var waveSpeed: real
    var waveHeight: real
    var waveFrequency: real

    var mouseX: real
    var mouseY: real
    var mousePressed: bool

    /** A fresh renderer: no mesh yet, time 0 and the default wave parameters. */
    constructor ()
      ensures vertices == null && indices == null && indexCount == 0
      ensures time == 0.0 && waveSpeed == 1.0 && waveHeight == 0.2 && waveFrequency == 5.0
      ensures mouseX == 0.0 && mouseY == 0.0 && !mousePressed
    {
      vertices, indices, indexCount := null, null, 0;
      time, waveSpeed, waveHeight, waveFrequency := 0.0, 1.0, 0.2, 5.0;
      mouseX, mouseY, mousePressed := 0.0, 0.0, false;
    }

    /**
     * Allocates and fills both mesh buffers. The result is exactly the
     * reference layout MeshVertices() / MeshIndices(), so every fact proved
     * about those holds of the buffers. No other field changes.
     */
    method GenerateMesh()
      modifies this`vertices, this`indices, this`indexCount
      ensures vertices != null && fresh(vertices)
      ensures indices != null && fresh(indices)
      ensures vertices[..] == MeshVertices()
      ensures indexCount == INDEX_COUNT == indices.Length
      ensures indices[..] == MeshIndices()
    {
      vertices := GenerateVertices();
      indexCount := CELLS * CELLS * 6;
      indices := GenerateIndices();
    }

    /** Advances the shader clock by deltaTime alone: the wave speed is not applied here. */
    method Update(deltaTime: real)
      modifies this`time
      ensures time == old(time) + deltaTime
    {
      time := time + deltaTime;
    }

    method SetMousePosition(x: real, y: real)
      modifies this`mouseX, this`mouseY
      ensures mouseX == x && mouseY == y
    {
      mouseX, mouseY := x, y;
    }

    /** The new flag depends only on the argument, so repeating the call changes nothing. */
    method SetMousePressed(pressed: bool)
      modifies this`mousePressed
      ensures mousePressed == pressed
    {
      mousePressed := pressed;
    }

    /** Stores the speed as given: no clamping here (the caller clamps). */
    method SetWaveSpeed(speed: real)
      modifies this`waveSpeed
      ensures waveSpeed == speed
    {
      waveSpeed := speed;
    }

    /** Stores the height as given: no clamping here (the caller clamps). */
    method SetWaveHeight(height: real)
      modifies this`waveHeight
      ensures waveHeight == height
    {
      waveHeight := height;
    }

    /** Stores the frequency as given: no clamping here (the caller clamps). */
    method SetWaveFrequency(frequency: real)
      modifies this`waveFrequency
      ensures waveFrequency == frequency
    {
      waveFrequency := frequency;
    }

    /** The clip-space mouse position the renderer hands to the shader for a window of the given size. */
    function MousePosUniform(screenWidth: int, screenHeight: int): (p: (real, real))
      reads this
      requires screenWidth != 0 && screenHeight != 0
      ensures DenormalizeMouse(p, screenWidth, screenHeight) == (mouseX, mouseY)
    {
      MouseRoundTrip(mouseX, mouseY, screenWidth, screenHeight);
      NormalizeMouse(mouseX, mouseY, screenWidth, screenHeight)
    }

    /** The mouse-button flag as the shader sees it: 1 while pressed, 0 otherwise. */
    function MousePressedUniform(): (f: real)
      reads this
      ensures f == 1.0 <==> mousePressed
      ensures f == 0.0 <==> !mousePressed
    {
      if mousePressed then 1.0 else 0.0
    }
  }
}
