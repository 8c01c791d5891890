/**
 * The RandomWallGenerator component: its inspector fields, the seeding of
 * the noise offset, GenerateWallMesh growing vertex, UV and triangle lists,
 * GenerateNoise, and the prefab scatter over the generated mesh.
 */
module Wall {
  import opened Wrappers
  import opened Geometry
  import opened Noise
  import opened WallMesh
  import opened PrefabScatter

  /** Random.Range(int.MinValue, int.MaxValue): a 32-bit integer, the maximum excluded. */
  predicate SeedDraw(d: int) {
    -0x8000_0000 <= d < 0x7FFF_FFFF
  }

  /**
   * The vertex indices the scatter of GenerateWallMesh draws: after
   * Random.InitState(seed) and the two Random.value calls of the noise
   * offset, the j-th Random.Range(0, n) of GeneratePrefabs is call 2 + j on
   * the seeded stream (`ranges(seed, k, n)` is Random.Range(0, n) as call k
   * after Random.InitState(seed)).
   */
  function SeededDraws(ranges: (int, nat, nat) -> int, seed: int, n: nat, count: nat): (r: seq<int>)
    ensures |r| == count
    ensures forall j :: 0 <= j < count ==> r[j] == ranges(seed, 2 + j, n)
  {
    seq(count, (j: int) requires 0 <= j < count => ranges(seed, 2 + j, n))
  }

  /** The inner triangle loop of GenerateWallMesh: appends the two triangles of each cell of line y. */
  method AddTileRow(triangles: seq<int>, widthSegments: int, y: nat) returns (r: seq<int>)
    ensures r == triangles + TileRow(Runs(widthSegments), y, Runs(widthSegments))
  {
    r := triangles;
    var x := 0;
    while x < widthSegments
      invariant 0 <= x <= Runs(widthSegments)
      invariant r == triangles + TileRow(Runs(widthSegments), y, x)
    {
      var i := y * (widthSegments + 1) + x;
      r := r + [i];
      r := r + [i + widthSegments + 1];
      r := r + [i + 1];
      r := r + [i + 1];
      r := r + [i + widthSegments + 1];
      r := r + [i + widthSegments + 2];
      x := x + 1;
    }
  }

  /** The triangle loops of GenerateWallMesh. */
  method AddTiles(widthSegments: int, heightSegments: int) returns (triangles: seq<int>)
    ensures triangles == Tiles(Runs(widthSegments), Runs(heightSegments))
  {
    triangles := [];
    var y := 0;
    while y < heightSegments
      invariant 0 <= y <= Runs(heightSegments)
      invariant triangles == Tiles(Runs(widthSegments), y)
    {
      triangles := AddTileRow(triangles, widthSegments, y);
      y := y + 1;
    }
  }

  lemma SampleAt(perlin: Perlin, px: real, py: real, frequency: real, sampleX: real, sampleY: real)
    requires sampleX == px * frequency && sampleY == py * frequency
    ensures perlin(sampleX, sampleY) == Sample(perlin, px, py, frequency)
  {
  }

  /**
   * The octave loop of GenerateNoise: starting at frequency 1 and amplitude
   * 1, it sums the samples at ((x + offset.x) / noiseScale, (y + offset.y) /
   * noiseScale) scaled by the frequency, weighted by the amplitude.
   */
  method NoiseHeight(x: int, y: int, perlin: Perlin, noiseOffset: Vec2, noiseScale: real, l: Layering)
    returns (noiseHeight: real)
    requires noiseScale != 0.0
    ensures noiseHeight == Layered(perlin, (x as real + noiseOffset.x) / noiseScale, (y as real + noiseOffset.y) / noiseScale,
                                   l, 1.0, 1.0, Octaves(l.octaves))
  {
    ghost var px, py := (x as real + noiseOffset.x) / noiseScale, (y as real + noiseOffset.y) / noiseScale;
    ghost var n := Octaves(l.octaves);
    var amplitude := 1.0;
    var frequency := 1.0;
    noiseHeight := 0.0;
    var i := 0;
    while i < l.octaves
      invariant 0 <= i <= n
      invariant noiseHeight + Layered(perlin, px, py, l, frequency, amplitude, n - i)
                == Layered(perlin, px, py, l, 1.0, 1.0, n)
    {
      var sampleX := (x as real + noiseOffset.x) / noiseScale * frequency;
      var sampleY := (y as real + noiseOffset.y) / noiseScale * frequency;
      var perlinValue := perlin(sampleX, sampleY);
      SampleAt(perlin, px, py, frequency, sampleX, sampleY);
      OctaveStep(perlin, px, py, l, frequency, amplitude, n - i, perlinValue);
      noiseHeight := noiseHeight + perlinValue * amplitude;
      amplitude := amplitude * l.persistence;
      frequency := frequency * l.lacunarity;
      i := i + 1;
    }
  }

  /**
   * The component. The MeshFilter and the MeshCollider always share the
   * mesh GenerateWallMesh builds, so one field stands for both; `children`
   * are the transform's children, the objects the scatter instantiates.
   */
  class RandomWallGenerator {
    var width: real
    var height: real
    var depth: real
    var widthSegments: int
    var heightSegments: int
    var centerX: bool
    var centerY: bool
    var centerZ: bool
    var noiseScale: real
    var octaves: int
    var persistence: real
    var lacunarity: real
    var noiseOffset: Vec2
    var seed: int
    var useRandomSeed: bool
    var prefabsToSpawn: seq<PrefabSpawnData>
    var sharedMesh: Option<Mesh>
    var children: seq<Attachment>

    /** The inspector defaults. */
    constructor ()
      ensures width == 10.0 && height == 10.0 && depth == 1.0 && widthSegments == 10 && heightSegments == 10
      ensures centerX && centerY && !centerZ
      ensures noiseScale == 5.0 && octaves == 4 && persistence == 0.5 && lacunarity == 2.0 && noiseOffset == Zero2
      ensures seed == 0 && useRandomSeed
      ensures prefabsToSpawn == [] && sharedMesh == None && children == []
    {
      width, height, depth, widthSegments, heightSegments := 10.0, 10.0, 1.0, 10, 10;
      centerX, centerY, centerZ := true, true, false;
      noiseScale, octaves, persistence, lacunarity, noiseOffset := 5.0, 4, 0.5, 2.0, Zero2;
      seed, useRandomSeed := 0, true;
      prefabsToSpawn, sharedMesh, children := [], None, [];
    }

    function Config(): WallConfig
      reads this`width, this`height, this`depth, this`widthSegments, this`heightSegments,
            this`centerX, this`centerY, this`centerZ, this`noiseScale, this`octaves, this`persistence, this`lacunarity
    {
      WallConfig(width, height, depth, widthSegments, heightSegments, centerX, centerY, centerZ,
                 noiseScale, octaves, persistence, lacunarity)
    }

    /** GenerateNoise: the octave sum at grid point (x, y), times depth. */
    method GenerateNoise(x: int, y: int, perlin: Perlin) returns (noise: real)
      requires noiseScale != 0.0
      ensures noise == WallNoise(Config(), noiseOffset, perlin, x, y)
    {
      var noiseHeight := NoiseHeight(x, y, perlin, noiseOffset, noiseScale, Config().Layers());
      noise := noiseHeight * depth;
    }

    /**
     * The inner vertex loop of GenerateWallMesh: appends the points of line
     * y and their UVs, for dx = width / widthSegments, dy = height /
     * heightSegments and the centring offsets.
     */
    method AddLine(perlin: Perlin, y: nat, dx: real, dy: real, offsetX: real, offsetY: real,
                   vertices: seq<Vec3>, uvs: seq<Vec2>)
      returns (vertices': seq<Vec3>, uvs': seq<Vec2>)
      requires Config().Buildable()
      requires dx == width / widthSegments as real && dy == height / heightSegments as real
      requires offsetX == Config().OffsetX() && offsetY == Config().OffsetY()
      ensures vertices' == vertices + Line(Config(), noiseOffset, perlin, y, Config().Columns())
      ensures uvs' == uvs + LineUVs(Config(), y, Config().Columns())
    {
      vertices', uvs' := vertices, uvs;
      var x := 0;
      while x <= widthSegments
        invariant 0 <= x <= Config().Columns()
        invariant vertices' == vertices + Line(Config(), noiseOffset, perlin, y, x)
        invariant uvs' == uvs + LineUVs(Config(), y, x)
      {
        var posX := x as real * dx + offsetX;
        var posY := y as real * dy + offsetY;
        var z := GenerateNoise(x, y, perlin);
        var posZ := if centerZ then z - depth / 2.0 else z;
        assert Vec3(posX, posY, posZ) == GridVertex(Config(), noiseOffset, perlin, x, y) by {
          assert posX == PosX(Config(), x) && posY == PosY(Config(), y);
        }
        vertices' := vertices' + [Vec3(posX, posY, posZ)];
        uvs' := uvs' + [Vec2(x as real / widthSegments as real, y as real / heightSegments as real)];
        x := x + 1;
      }
    }

    /** The vertex loops of GenerateWallMesh: lines 0 to heightSegments, bottom to top. */
    method AddLines(perlin: Perlin, dx: real, dy: real, offsetX: real, offsetY: real)
      returns (vertices: seq<Vec3>, uvs: seq<Vec2>)
      requires Config().Buildable()
      requires dx == width / widthSegments as real && dy == height / heightSegments as real
      requires offsetX == Config().OffsetX() && offsetY == Config().OffsetY()
      ensures vertices == WallVertices(Config(), noiseOffset, perlin)
      ensures uvs == WallUVs(Config())
    {
      vertices, uvs := [], [];
      var y := 0;
      while y <= heightSegments
        invariant 0 <= y <= Config().Lines()
        invariant vertices == Grid(Config(), noiseOffset, perlin, y)
        invariant uvs == GridUVs(Config(), y)
      {
        vertices, uvs := AddLine(perlin, y, dx, dy, offsetX, offsetY, vertices, uvs);
        y := y + 1;
      }
    }

    /** The mesh building part of GenerateWallMesh, once the noise offset is set. */
    method BuildWall(perlin: Perlin) returns (mesh: Mesh)
      requires Config().Buildable()
      ensures mesh == WallMeshOf(Config(), noiseOffset, perlin)
    {
      var dx := width / widthSegments as real;
      var dy := height / heightSegments as real;
      var offsetX := if centerX then -width / 2.0 else 0.0;
      var offsetY := if centerY then -height / 2.0 else 0.0;
      var vertices, uvs := AddLines(perlin, dx, dy, offsetX, offsetY);
      var triangles := AddTiles(widthSegments, heightSegments);
      mesh := Mesh(vertices, uvs, triangles);
    }

    /** The seeding step of GenerateWallMesh: the seed and the noise offset drawn from it. */
    method Reseed(values: (int, nat) -> real, drawnSeed: int)
      modifies this`seed, this`noiseOffset
      ensures seed == if old(useRandomSeed) then drawnSeed else old(seed)
      ensures noiseOffset == Vec2(values(seed, 0) * 1000.0, values(seed, 1) * 1000.0)
    {
      if useRandomSeed {
        seed := drawnSeed;
      }
      noiseOffset := Vec2(values(seed, 0) * 1000.0, values(seed, 1) * 1000.0);
    }

    /**
     * Seeds the generator (with `drawnSeed`, the value of
     * Random.Range(int.MinValue, int.MaxValue), when useRandomSeed is set),
     * takes the noise offset from the first two values of the seeded
     * stream (`values(seed, k)` is the k-th Random.value after
     * Random.InitState(seed)), builds the wall mesh, hands it to the
     * MeshFilter and the MeshCollider and scatters the prefabs over it with
     * the next draws of the same stream, so that a seed fixes both the
     * wall and the prefab layout.
     */
    method GenerateWallMesh(perlin: Perlin, values: (int, nat) -> real, ranges: (int, nat, nat) -> int, drawnSeed: int,
                            normals: seq<Vec3>, toWorld: Vec3 -> Vec3)
      returns (fault: Option<Fault>)
      requires Config().Buildable() && SeedDraw(drawnSeed)
      requires |normals| == Config().Columns() * Config().Lines()
      requires forall s: int, k: nat, n: nat :: RangeDraw(ranges(s, k, n), n)
      modifies this`seed, this`noiseOffset, this`sharedMesh, this`children
      ensures seed == if old(useRandomSeed) then drawnSeed else old(seed)
      ensures noiseOffset == Vec2(values(seed, 0) * 1000.0, values(seed, 1) * 1000.0)
      ensures sharedMesh == Some(WallMeshOf(Config(), noiseOffset, perlin))
      ensures |normals| == |sharedMesh.value.vertices|
      ensures Scattered(prefabsToSpawn, sharedMesh.value.vertices, normals, toWorld,
                        SeededDraws(ranges, seed, |sharedMesh.value.vertices|, TotalSpawn(prefabsToSpawn)), fault, children)
    {
      Reseed(values, drawnSeed);
      var draws := SeededDraws(ranges, seed, Config().Columns() * Config().Lines(), TotalSpawn(prefabsToSpawn));
      fault := Rebuild(perlin, normals, toWorld, draws);
    }

    /** GenerateWallMesh after seeding: builds the mesh, installs it and scatters the prefabs. */
    method Rebuild(perlin: Perlin, normals: seq<Vec3>, toWorld: Vec3 -> Vec3, draws: seq<int>)
      returns (fault: Option<Fault>)
      requires Config().Buildable()
      requires |normals| == Config().Columns() * Config().Lines()
      requires TotalSpawn(prefabsToSpawn) <= |draws|
      requires forall j :: 0 <= j < |draws| ==> RangeDraw(draws[j], Config().Columns() * Config().Lines())
      modifies this`sharedMesh, this`children
      ensures sharedMesh == Some(WallMeshOf(Config(), noiseOffset, perlin))
      ensures |normals| == |sharedMesh.value.vertices|
      ensures Scattered(prefabsToSpawn, sharedMesh.value.vertices, normals, toWorld, draws, fault, children)
    {
      ghost var c := Config();
      var mesh := BuildWall(perlin);
      assert mesh.vertices == WallVertices(c, noiseOffset, perlin);
      assert |mesh.vertices| == |normals| == c.Columns() * c.Lines();
      sharedMesh := Some(mesh);
      assert Config() == c;
      fault := GeneratePrefabs(normals, toWorld, draws);
    }

    /**
     * Removes every child, from the last to the first (Destroy in play
     * mode, DestroyImmediate in the editor).
     */
    method DestroyAllChildren()
      modifies this`children
      ensures children == []
    {
      var i := |children| - 1;
      while i >= 0
        invariant -1 <= i < |old(children)| && children == old(children)[..i + 1]
      {
        children := children[..i];
        i := i - 1;
      }
    }

    /**
     * Clears the children and scatters the spawn rules over the shared
     * mesh, as ClimbingSpire.GeneratePrefabs does: `normals` are the mesh's
     * recalculated normals, `toWorld` is the transform's TransformPoint and
     * `draws` the values Random.Range(0, vertices.Length) returns, in order.
     */
    method GeneratePrefabs(normals: seq<Vec3>, toWorld: Vec3 -> Vec3, draws: seq<int>) returns (fault: Option<Fault>)
      requires sharedMesh.Some? ==> |normals| == |sharedMesh.value.vertices|
      requires TotalSpawn(prefabsToSpawn) <= |draws|
      requires sharedMesh.Some? ==> forall j :: 0 <= j < |draws| ==> RangeDraw(draws[j], |sharedMesh.value.vertices|)
      modifies this`children
      ensures sharedMesh == None ==> children == [] &&
                                     fault == if prefabsToSpawn == [] then None else Some(NullReferenceException)
      ensures sharedMesh.Some? ==>
                Scattered(prefabsToSpawn, sharedMesh.value.vertices, normals, toWorld, draws, fault, children)
    {
      var mesh := sharedMesh;
      DestroyAllChildren();
      if |prefabsToSpawn| == 0 {
        return None;
      }
      if mesh == None {
        return Some(NullReferenceException);
      }
      var vertices := mesh.value.vertices;
      var spawned, failed := PlaceAll(prefabsToSpawn, vertices, normals, toWorld, draws);
      children := spawned;
      fault := if failed then Some(IndexOutOfRangeException) else None;
    }

    /**
     * Sets the spawn ratio of rule `index` to the input clamped to [0, 1];
     * an index outside the list only logs a warning.
     */
    method SetPrefabNumber(index: int, input: real) returns (warned: bool)
      modifies this`prefabsToSpawn
      ensures warned <==> !(0 <= index < |old(prefabsToSpawn)|)
      ensures prefabsToSpawn == WithSpawnRatio(old(prefabsToSpawn), index, input)
    {
      if index < 0 || index >= |prefabsToSpawn| {
        warned := true;
        return;
      }
      warned := false;
      var data := prefabsToSpawn[index];
      data := data.(spawnRatio := Clamp01(input));
      prefabsToSpawn := prefabsToSpawn[index := data];
    }

    method SetPrefabNumberZero(input: real) returns (warned: bool)
      modifies this`prefabsToSpawn
      ensures warned <==> |old(prefabsToSpawn)| <= 0
      ensures prefabsToSpawn == WithSpawnRatio(old(prefabsToSpawn), 0, input)
    {
      warned := SetPrefabNumber(0, input);
    }

    method SetPrefabNumberOne(input: real) returns (warned: bool)
      modifies this`prefabsToSpawn
      ensures warned <==> |old(prefabsToSpawn)| <= 1
      ensures prefabsToSpawn == WithSpawnRatio(old(prefabsToSpawn), 1, input)
    {
      warned := SetPrefabNumber(1, input);
    }

    method SetPrefabNumberTwo(input: real) returns (warned: bool)
      modifies this`prefabsToSpawn
      ensures warned <==> |old(prefabsToSpawn)| <= 2
      ensures prefabsToSpawn == WithSpawnRatio(old(prefabsToSpawn), 2, input)
    {
      warned := SetPrefabNumber(2, input);
    }

    method SetPrefabNumberThree(input: real) returns (warned: bool)
      modifies this`prefabsToSpawn
      ensures warned <==> |old(prefabsToSpawn)| <= 3
      ensures prefabsToSpawn == WithSpawnRatio(old(prefabsToSpawn), 3, input)
    {
      warned := SetPrefabNumber(3, input);
    }

    method SetPrefabNumberFour(input: real) returns (warned: bool)
      modifies this`prefabsToSpawn
      ensures warned <==> |old(prefabsToSpawn)| <= 4
      ensures prefabsToSpawn == WithSpawnRatio(old(prefabsToSpawn), 4, input)
    {
      warned := SetPrefabNumber(4, input);
    }
  }
}
