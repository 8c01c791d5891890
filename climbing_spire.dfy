/**
 * The ClimbingSpire component: its inspector fields, GenerateSpire filling
 * fixed-size vertex, UV and triangle buffers through advancing write
 * cursors, the slider setters, and the prefab scatter over the generated
 * mesh.
 */
module Spire {
  import opened Wrappers
  import opened Geometry
  import opened Noise
  import opened Grids
  import opened SpireMesh
  import opened PrefabScatter

  /**
   * The octave loop of GenerateSpire for one vertex: starting at frequency
   * noiseScale and amplitude 1, it sums the weighted samples into
   * totalNoise and the amplitudes into maxAmplitude.
   */
  method LayeredNoise(perlin: Perlin, mirroredU: real, v: real, l: Layering, noiseScale: real)
    returns (totalNoise: real, maxAmplitude: real)
    ensures totalNoise == Layered(perlin, mirroredU, v, l, noiseScale, 1.0, Octaves(l.octaves))
    ensures maxAmplitude == Weight(l, 1.0, Octaves(l.octaves))
  {
    var frequency := noiseScale;
    var amplitude := 1.0;
    totalNoise, maxAmplitude := 0.0, 0.0;
    var o := 0;
    while o < l.octaves
      invariant 0 <= o <= Octaves(l.octaves)
      invariant totalNoise + Layered(perlin, mirroredU, v, l, frequency, amplitude, Octaves(l.octaves) - o)
                == Layered(perlin, mirroredU, v, l, noiseScale, 1.0, Octaves(l.octaves))
      invariant maxAmplitude + Weight(l, amplitude, Octaves(l.octaves) - o) == Weight(l, 1.0, Octaves(l.octaves))
    {
      var perlinValue := perlin(mirroredU * frequency, v * frequency);
      OctaveStep(perlin, mirroredU, v, l, frequency, amplitude, Octaves(l.octaves) - o, perlinValue);
      totalNoise := totalNoise + perlinValue * amplitude;
      maxAmplitude := maxAmplitude + amplitude;
      amplitude := amplitude * l.persistence;
      frequency := frequency * l.lacunarity;
      o := o + 1;
    }
  }

  /**
   * The body of the inner side loop: side vertex i of ring y and its UV,
   * for v = y / heightSegments and yPos = v * height.
   */
  method RingVertex(c: SpireConfig, m: Mathf, y: nat, i: nat, v: real, yPos: real) returns (vertex: Vec3, uv: Vec2)
    requires c.Buildable() && i < c.radialSegments
    requires v == Fraction(y, c.heightSegments) && yPos == Level(v, c.height)
    ensures vertex == SideVertex(c, m, y, i)
    ensures uv == SideUV(c, y, i)
  {
    var n := c.radialSegments;
    var u := i as real / n as real;
    var wrappedU := if i == n - 1 then 0.0 else u;
    var mirroredU := if wrappedU <= 0.5 then wrappedU else 1.0 - wrappedU;
    var angle := u * PI * 2.0;
    var x := m.cos(angle);
    var z := m.sin(angle);
    var totalNoise, maxAmplitude := LayeredNoise(m.perlinNoise, mirroredU, v, c.Layers(), c.noiseScale);
    var normalizedNoise := totalNoise / maxAmplitude;
    var displacedRadius := c.radius + normalizedNoise * c.noiseAmplitude;
    assert u == Fraction(i, n) && angle == Angle(u);
    assert mirroredU == MirroredU(i, n);
    assert normalizedNoise == NormalizedNoise(c, m.perlinNoise, mirroredU, v);
    vertex := Vec3(x * displacedRadius, yPos, z * displacedRadius);
    uv := Vec2(u, v);
    assert vertex == OnRing(x, z, DisplacedRadius(c, m.perlinNoise, mirroredU, v), Level(v, c.height));
  }

  /**
   * The inner side loop: writes the vertices and UVs of ring y from `start`
   * on, for v = y / heightSegments and yPos = v * height.
   */
  method FillRing(vertices: array<Vec3>, uvs: array<Vec2>, c: SpireConfig, m: Mathf, y: nat, v: real, yPos: real, start: nat)
    returns (vertIndex: nat)
    requires c.Buildable() && start + c.radialSegments <= vertices.Length == uvs.Length
    requires v == Fraction(y, c.heightSegments) && yPos == Level(v, c.height)
    modifies vertices, uvs
    ensures vertIndex == start + c.radialSegments
    ensures vertices[..vertIndex] == old(vertices[..start]) + Ring(c, m, y, c.radialSegments)
    ensures uvs[..vertIndex] == old(uvs[..start]) + RingUVs(c, y, c.radialSegments)
    ensures forall j :: vertIndex <= j < uvs.Length ==> uvs[j] == old(uvs[j])
  {
    var n := c.radialSegments;
    ghost var before, initialUVs := vertices[..start], uvs[..];
    vertIndex := start;
    var i := 0;
    while i < n
      invariant 0 <= i <= n && vertIndex == start + i
      invariant forall j :: 0 <= j < start ==> vertices[j] == before[j]
      invariant forall j :: 0 <= j < start ==> uvs[j] == initialUVs[j]
      invariant forall k: nat :: k < i ==> vertices[start + k] == SideVertex(c, m, y, k)
      invariant forall k: nat :: k < i ==> uvs[start + k] == SideUV(c, y, k)
      invariant forall j :: vertIndex <= j < uvs.Length ==> uvs[j] == initialUVs[j]
    {
      var vertex, uv := RingVertex(c, m, y, i, v, yPos);
      vertices[vertIndex] := vertex;
      uvs[vertIndex] := uv;
      vertIndex := vertIndex + 1;
      i := i + 1;
    }
    RingWritten(vertices[..], before, c, m, y, n);
    RingUVsWritten(uvs[..], initialUVs[..start], c, y, n);
  }

  /** The side loop: writes rings 0 to heightSegments from the start of the buffers. */
  method FillSide(vertices: array<Vec3>, uvs: array<Vec2>, c: SpireConfig, m: Mathf)
    returns (vertIndex: nat)
    requires c.Buildable() && c.SideCount() <= vertices.Length == uvs.Length
    modifies vertices, uvs
    ensures vertIndex == c.SideCount()
    ensures vertices[..vertIndex] == SideVertices(c, m)
    ensures uvs[..vertIndex] == SideUVs(c)
    ensures forall j :: vertIndex <= j < uvs.Length ==> uvs[j] == old(uvs[j])
  {
    var n := c.radialSegments;
    CellsIsProduct(n, c.heightSegments + 1);
    vertIndex := 0;
    var y := 0;
    while y <= c.heightSegments
      invariant 0 <= y <= c.heightSegments + 1 && vertIndex == Cells(n, y) <= Cells(n, c.heightSegments + 1)
      invariant vertices[..vertIndex] == Side(c, m, y)
      invariant uvs[..vertIndex] == SideUVRows(c, y)
      invariant forall j :: vertIndex <= j < uvs.Length ==> uvs[j] == old(uvs[j])
    {
      CellsMono(n, y + 1, c.heightSegments + 1);
      var v := y as real / c.heightSegments as real;
      var yPos := v * c.height;
      vertIndex := FillRing(vertices, uvs, c, m, y, v, yPos, vertIndex);
      assert vertices[..vertIndex] == Side(c, m, y) + Ring(c, m, y, n) == Side(c, m, y + 1);
      assert uvs[..vertIndex] == SideUVRows(c, y) + RingUVs(c, y, n) == SideUVRows(c, y + 1);
      y := y + 1;
    }
  }

  /** The body of the inner side triangle loop: the two triangles of quad i of ring y, at `start`. */
  method WriteQuad(triangles: array<int>, n: nat, y: nat, i: nat, start: nat) returns (triIndex: nat)
    requires i < n && start + 6 <= triangles.Length
    modifies triangles
    ensures triIndex == start + 6
    ensures triangles[..triIndex] == old(triangles[..start]) + Quad(n, y, i)
  {
    var current := y * n + i;
    var next := y * n + Next(i, n);
    var currentAbove := current + n;
    var nextAbove := next + n;
    triIndex := start;
    triangles[triIndex] := current;
    triangles[triIndex + 1] := currentAbove;
    triangles[triIndex + 2] := next;
    triangles[triIndex + 3] := next;
    triangles[triIndex + 4] := currentAbove;
    triangles[triIndex + 5] := nextAbove;
    triIndex := triIndex + 6;
    assert triangles[start..triIndex] == Quad(n, y, i);
    assert triangles[..triIndex] == triangles[..start] + triangles[start..triIndex];
  }

  /** The inner loop of the side triangles: the quads of ring y, written from `start` on. */
  method FillQuadRow(triangles: array<int>, n: nat, y: nat, start: nat) returns (triIndex: nat)
    requires start + 6 * n <= triangles.Length
    modifies triangles
    ensures triIndex == start + 6 * n
    ensures triangles[..triIndex] == old(triangles[..start]) + QuadRow(n, y, n)
  {
    ghost var before := triangles[..start];
    triIndex := start;
    var i := 0;
    while i < n
      invariant 0 <= i <= n && triIndex == start + 6 * i
      invariant triangles[..triIndex] == before + QuadRow(n, y, i)
    {
      triIndex := WriteQuad(triangles, n, y, i, triIndex);
      i := i + 1;
    }
  }

  /** The side triangle loop: the quads of the first `rows` rings, from the start of the buffer. */
  method FillQuads(triangles: array<int>, n: nat, rows: nat) returns (triIndex: nat)
    requires n * rows * 6 <= triangles.Length
    modifies triangles
    ensures triIndex == n * rows * 6
    ensures triangles[..triIndex] == Quads(n, rows)
  {
    QuadsLength(n, rows);
    triIndex := 0;
    var y := 0;
    while y < rows
      invariant 0 <= y <= rows && triIndex == Cells(6 * n, y) <= Cells(6 * n, rows)
      invariant triangles[..triIndex] == Quads(n, y)
    {
      CellsMono(6 * n, y + 1, rows);
      triIndex := FillQuadRow(triangles, n, y, triIndex);
      y := y + 1;
    }
  }

  /**
   * A rim loop: copies the n vertices from `src` on to the slots from `start`
   * on, moved to height `level`.
   */
  method FillRim(vertices: array<Vec3>, src: nat, level: real, n: nat, start: nat) returns (vertIndex: nat)
    requires src + n <= start && start + n <= vertices.Length
    modifies vertices
    ensures vertIndex == start + n
    ensures vertices[..vertIndex] == old(vertices[..start]) + Rim(old(vertices[..start]), src, n, level)
  {
    ghost var before := vertices[..start];
    vertIndex := start;
    var i := 0;
    while i < n
      invariant 0 <= i <= n && vertIndex == start + i
      invariant vertices[..vertIndex] == before + Rim(before, src, i, level)
    {
      var v := vertices[src + i];
      vertices[vertIndex] := Vec3(v.x, level, v.z);
      assert vertices[..vertIndex + 1] == vertices[..vertIndex] + [Vec3(before[src + i].x, level, before[src + i].z)];
      vertIndex := vertIndex + 1;
      i := i + 1;
    }
  }

  /** The bottom cap loop: rim i, rim next, centre, for every segment i. */
  method FillBottomFan(triangles: array<int>, n: nat, rimStart: int, center: int, start: nat) returns (triIndex: nat)
    requires start + 3 * n <= triangles.Length
    modifies triangles
    ensures triIndex == start + 3 * n
    ensures triangles[..triIndex] == old(triangles[..start]) + BottomFan(n, rimStart, center, n)
  {
    ghost var before := triangles[..start];
    triIndex := start;
    var i := 0;
    while i < n
      invariant 0 <= i <= n && triIndex == start + 3 * i
      invariant triangles[..triIndex] == before + BottomFan(n, rimStart, center, i)
    {
      var next := Next(i, n);
      triangles[triIndex] := rimStart + i;
      triangles[triIndex + 1] := rimStart + next;
      triangles[triIndex + 2] := center;
      assert triangles[..triIndex + 3] == triangles[..triIndex] + [rimStart + i, rimStart + Next(i, n), center];
      triIndex := triIndex + 3;
      i := i + 1;
    }
  }

  /** The top cap loop: rim next, rim i, centre, for every segment i. */
  method FillTopFan(triangles: array<int>, n: nat, rimStart: int, center: int, start: nat) returns (triIndex: nat)
    requires start + 3 * n <= triangles.Length
    modifies triangles
    ensures triIndex == start + 3 * n
    ensures triangles[..triIndex] == old(triangles[..start]) + TopFan(n, rimStart, center, n)
  {
    ghost var before := triangles[..start];
    triIndex := start;
    var i := 0;
    while i < n
      invariant 0 <= i <= n && triIndex == start + 3 * i
      invariant triangles[..triIndex] == before + TopFan(n, rimStart, center, i)
    {
      var next := Next(i, n);
      triangles[triIndex] := rimStart + next;
      triangles[triIndex + 1] := rimStart + i;
      triangles[triIndex + 2] := center;
      assert triangles[..triIndex + 3] == triangles[..triIndex] + [rimStart + Next(i, n), rimStart + i, center];
      triIndex := triIndex + 3;
      i := i + 1;
    }
  }

  /**
   * The cap vertices of GenerateSpire, written after the side: the bottom
   * and top centres, then the bottom rim copied from the first ring and the
   * top rim copied from the last.
   */
  method FillCaps(vertices: array<Vec3>, n: nat, rows: nat, height: real, start: nat) returns (vertIndex: nat)
    requires start == n * rows + n && vertices.Length == start + 2 + 2 * n
    modifies vertices
    ensures vertIndex == vertices.Length
    ensures vertices[..] == Capped(old(vertices[..start]), n, rows, height)
  {
    ghost var side := vertices[..start];
    vertIndex := start;
    var bottomCenterIndex := vertIndex;
    vertIndex := vertIndex + 1;
    vertices[bottomCenterIndex] := Vec3(0.0, 0.0, 0.0);
    var topCenterIndex := vertIndex;
    vertIndex := vertIndex + 1;
    vertices[topCenterIndex] := Vec3(0.0, height, 0.0);
    ghost var centres := vertices[..vertIndex];
    assert centres == side + [Vec3(0.0, 0.0, 0.0), Vec3(0.0, height, 0.0)];

    vertIndex := FillRim(vertices, 0, 0.0, n, vertIndex);
    RimOfPrefix(side, centres, 0, n, 0.0);
    ghost var bottom := vertices[..vertIndex];
    var topStart := n * rows;
    vertIndex := FillRim(vertices, topStart, height, n, vertIndex);
    RimOfPrefix(side, bottom, topStart, n, height);
    assert vertices[..] == vertices[..vertIndex];
  }

  /**
   * The cap triangles of GenerateSpire, written after the side quads: the
   * bottom fan and then the top fan.
   */
  method FillFans(triangles: array<int>, c: SpireConfig, start: nat) returns (triIndex: nat)
    requires c.Buildable() && start == c.QuadEntries() && triangles.Length == c.TriangleCount()
    requires triangles[..start] == Quads(c.radialSegments, c.heightSegments)
    modifies triangles
    ensures triIndex == triangles.Length
    ensures triangles[..] == SpireTriangles(c)
  {
    var bottomRimStart := c.SideCount() + 2;
    triIndex := FillBottomFan(triangles, c.radialSegments, bottomRimStart, c.SideCount(), start);
    var topRimStart := bottomRimStart + c.radialSegments;
    triIndex := FillTopFan(triangles, c.radialSegments, topRimStart, c.SideCount() + 1, triIndex);
    assert triangles[..] == triangles[..triIndex];
  }

  /**
   * The vertex and UV work of GenerateSpire: zero-initialised arrays of
   * totalVertCount entries, filled with the side rings, then the cap
   * centres and rims (the UVs of the caps stay zero).
   */
  method SpireVertexBuffers(c: SpireConfig, m: Mathf) returns (vertices: seq<Vec3>, uvs: seq<Vec2>)
    requires c.Buildable()
    ensures vertices == SpireVertices(c, m) && uvs == SpireUVs(c)
  {
    var sideVertCount := c.radialSegments * (c.heightSegments + 1);
    var capCenterCount := 2;
    var capRimCount := c.radialSegments * 2;
    var totalVertCount := sideVertCount + capCenterCount + capRimCount;
    var vertexBuffer := new Vec3[totalVertCount](_ => Zero3);
    var uvBuffer := new Vec2[totalVertCount](_ => Zero2);

    VertexCountSplit(c);
    var vertIndex := FillSide(vertexBuffer, uvBuffer, c, m);
    UVsWithZeroCaps(uvBuffer[..], c);
    uvs := uvBuffer[..];
    ghost var side := vertexBuffer[..vertIndex];
    vertIndex := FillCaps(vertexBuffer, c.radialSegments, c.heightSegments, c.height, vertIndex);
    SpireVerticesOfSide(c, m, side);
    vertices := vertexBuffer[..];
  }

  /** The triangle work of GenerateSpire: the side quads, then the two cap fans. */
  method SpireTriangleBuffer(c: SpireConfig) returns (triangles: seq<int>)
    requires c.Buildable()
    ensures triangles == SpireTriangles(c)
  {
    var triangleBuffer := new int[c.radialSegments * c.heightSegments * 6 + c.radialSegments * 3 * 2](_ => 0);
    var triIndex := FillQuads(triangleBuffer, c.radialSegments, c.heightSegments);
    triIndex := FillFans(triangleBuffer, c, triIndex);
    triangles := triangleBuffer[..];
  }

  /**
   * The component. The MeshFilter and the MeshCollider always share the
   * mesh GenerateSpire builds, so one field stands for both; `children`
   * are the transform's children, the objects the scatter instantiates.
   */
  class ClimbingSpire {
    var radius: real
    var height: real
    var radialSegments: int
    var heightSegments: int
    var noiseAmplitude: real
    var noiseScale: real
    var octaves: int
    var persistence: real
    var lacunarity: real
    var prefabsToSpawn: seq<PrefabSpawnData>
    var sharedMesh: Option<Mesh>
    var children: seq<Attachment>

    /** The inspector defaults. */
    constructor ()
      ensures radius == 1.0 && height == 2.0 && radialSegments == 24 && heightSegments == 8
      ensures noiseAmplitude == 0.2 && noiseScale == 1.0 && octaves == 4 && persistence == 0.5 && lacunarity == 2.0
      ensures prefabsToSpawn == [] && sharedMesh == None && children == []
    {
      radius, height, radialSegments, heightSegments := 1.0, 2.0, 24, 8;
      noiseAmplitude, noiseScale, octaves, persistence, lacunarity := 0.2, 1.0, 4, 0.5, 2.0;
      prefabsToSpawn, sharedMesh, children := [], None, [];
    }

    function Config(): SpireConfig
      reads this`radius, this`height, this`radialSegments, this`heightSegments, this`noiseAmplitude,
            this`noiseScale, this`octaves, this`persistence, this`lacunarity
    {
      SpireConfig(radius, height, radialSegments, heightSegments, noiseAmplitude, noiseScale, octaves, persistence, lacunarity)
    }

    /** Builds the spire mesh and hands it to the MeshFilter and the MeshCollider. */
    method GenerateSpire(m: Mathf)
      requires Config().Buildable()
      modifies this`sharedMesh
      ensures sharedMesh == Some(SpireMeshOf(Config(), m))
    {
      var vertices, uvs := SpireVertexBuffers(Config(), m);
      var triangles := SpireTriangleBuffer(Config());
      sharedMesh := Some(Mesh(vertices, uvs, triangles));
    }

    /** The depth slider: a slider value of 1 is a noise amplitude of 10. */
    method SetDepth(value: real)
      modifies this`noiseAmplitude
      ensures noiseAmplitude == value * 10.0
    {
      noiseAmplitude := value * 10.0;
    }

    /** The noise scale slider: a slider value of 1 is a noise scale of 100. */
    method SetNoiseScale(value: real)
      modifies this`noiseScale
      ensures noiseScale == value * 100.0
    {
      noiseScale := value * 100.0;
    }

    /** The persistence slider: a slider value of 1 is a persistence of 0.5. */
    method SetPersistence(value: real)
      modifies this`persistence
      ensures persistence == value / 2.0
    {
      persistence := value / 2.0;
    }

    /** The lacunarity slider: a slider value of 1 is a lacunarity of 10. */
    method SetLacunarity(value: real)
      modifies this`lacunarity
      ensures lacunarity == value * 10.0
    {
      lacunarity := value * 10.0;
    }

    /**
     * Removes every child, from the last to the first (Destroy in play
     * mode, DestroyImmediate in the editor).
     */
    method DestroyAllChildren()
      modifies this`children
      ensures children == []
    {
      var i := |children| - 1;
      while i >= 0
        invariant -1 <= i < |old(children)| && children == old(children)[..i + 1]
      {
        children := children[..i];
        i := i - 1;
      }
    }

    /**
     * Clears the children and scatters the spawn rules over the shared
     * mesh: `normals` are the mesh's recalculated normals, `toWorld` is the
     * transform's TransformPoint and `draws` the values Random.Range(0,
     * vertices.Length) returns, in order. A missing mesh throws a
     * NullReferenceException once there is a rule; an empty mesh throws an
     * IndexOutOfRangeException at the first object to place. Either way
     * no object has been placed.
     */
    method GeneratePrefabs(normals: seq<Vec3>, toWorld: Vec3 -> Vec3, draws: seq<int>) returns (fault: Option<Fault>)
      requires sharedMesh.Some? ==> |normals| == |sharedMesh.value.vertices|
      requires TotalSpawn(prefabsToSpawn) <= |draws|
      requires sharedMesh.Some? ==> forall j :: 0 <= j < |draws| ==> RangeDraw(draws[j], |sharedMesh.value.vertices|)
      modifies this`children
      ensures sharedMesh == None ==> children == [] &&
                                     fault == if prefabsToSpawn == [] then None else Some(NullReferenceException)
      ensures sharedMesh.Some? ==>
                Scattered(prefabsToSpawn, sharedMesh.value.vertices, normals, toWorld, draws, fault, children)
    {
      var mesh := sharedMesh;
      DestroyAllChildren();
      if |prefabsToSpawn| == 0 {
        return None;
      }
      if mesh == None {
        return Some(NullReferenceException);
      }
      var vertices := mesh.value.vertices;
      var spawned, failed := PlaceAll(prefabsToSpawn, vertices, normals, toWorld, draws);
      children := spawned;
      fault := if failed then Some(IndexOutOfRangeException) else None;
    }

    /**
     * Sets the spawn ratio of rule `index` to the input clamped to [0, 1];
     * an index outside the list only logs a warning.
     */
    method SetPrefabNumber(index: int, input: real) returns (warned: bool)
      modifies this`prefabsToSpawn
      ensures warned <==> !(0 <= index < |old(prefabsToSpawn)|)
      ensures prefabsToSpawn == WithSpawnRatio(old(prefabsToSpawn), index, input)
    {
      if index < 0 || index >= |prefabsToSpawn| {
        warned := true;
        return;
      }
      warned := false;
      var data := prefabsToSpawn[index];
      data := data.(spawnRatio := Clamp01(input));
      prefabsToSpawn := prefabsToSpawn[index := data];
    }

    method SetPrefabNumberZero(input: real) returns (warned: bool)
      modifies this`prefabsToSpawn
      ensures warned <==> |old(prefabsToSpawn)| <= 0
      ensures prefabsToSpawn == WithSpawnRatio(old(prefabsToSpawn), 0, input)
    {
      warned := SetPrefabNumber(0, input);
    }

    method SetPrefabNumberOne(input: real) returns (warned: bool)
      modifies this`prefabsToSpawn
      ensures warned <==> |old(prefabsToSpawn)| <= 1
      ensures prefabsToSpawn == WithSpawnRatio(old(prefabsToSpawn), 1, input)
    {
      warned := SetPrefabNumber(1, input);
    }

    method SetPrefabNumberTwo(input: real) returns (warned: bool)
      modifies this`prefabsToSpawn
      ensures warned <==> |old(prefabsToSpawn)| <= 2
      ensures prefabsToSpawn == WithSpawnRatio(old(prefabsToSpawn), 2, input)
    {
      warned := SetPrefabNumber(2, input);
    }

    method SetPrefabNumberThree(input: real) returns (warned: bool)
      modifies this`prefabsToSpawn
      ensures warned <==> |old(prefabsToSpawn)| <= 3
      ensures prefabsToSpawn == WithSpawnRatio(old(prefabsToSpawn), 3, input)
    {
      warned := SetPrefabNumber(3, input);
    }

    method SetPrefabNumberFour(input: real) returns (warned: bool)
      modifies this`prefabsToSpawn
      ensures warned <==> |old(prefabsToSpawn)| <= 4
      ensures prefabsToSpawn == WithSpawnRatio(old(prefabsToSpawn), 4, input)
    {
      warned := SetPrefabNumber(4, input);
    }
  }
}
