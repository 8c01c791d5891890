/**
 * The mesh RandomWallGenerator.GenerateWallMesh builds, as values: a grid of
 * (widthSegments+1) x (heightSegments+1) vertices spanning width x height,
 * optionally centred, pushed out along z by layered noise, with two
 * triangles per grid cell.
 */
module WallMesh {
  import opened Geometry
  import opened Noise
  import opened Grids
  import Arith

  /** How many times a loop `for (i = 0; i < n; i++)` runs. */
  function Runs(n: int): nat {
    if n < 0 then 0 else n
  }

  /** The inspector fields GenerateWallMesh reads. */
  datatype WallConfig = WallConfig(width: real, height: real, depth: real,
                                   widthSegments: int, heightSegments: int,
                                   centerX: bool, centerY: bool, centerZ: bool,
                                   noiseScale: real, octaves: int, persistence: real, lacunarity: real)
  {
    function Layers(): Layering {
      Layering(octaves, persistence, lacunarity)
    }

    /**
     * The settings the model builds a wall from: the three divisors
     * (width / widthSegments, height / heightSegments and the noise scale)
     * are not zero.
     */
    predicate Buildable() {
      widthSegments != 0 && heightSegments != 0 && noiseScale != 0.0
    }

    /** How many times `for (x = 0; x <= widthSegments; x++)` runs. */
    function Columns(): nat {
      if widthSegments < 0 then 0 else widthSegments + 1
    }

    /** How many times `for (y = 0; y <= heightSegments; y++)` runs. */
    function Lines(): nat {
      if heightSegments < 0 then 0 else heightSegments + 1
    }

    /** How many times `for (x = 0; x < widthSegments; x++)` runs. */
    function TileColumns(): nat {
      Runs(widthSegments)
    }

    /** How many times `for (y = 0; y < heightSegments; y++)` runs. */
    function TileLines(): nat {
      Runs(heightSegments)
    }

    function OffsetX(): real {
      if centerX then -width / 2.0 else 0.0
    }

    function OffsetY(): real {
      if centerY then -height / 2.0 else 0.0
    }
  }

  /**
   * GenerateNoise(x, y): the octave sum at ((x + offset.x) / noiseScale,
   * (y + offset.y) / noiseScale) starting at frequency 1 and amplitude 1,
   * times depth. Unlike the spire's, it is not divided by the total amplitude.
   */
  function WallNoise(c: WallConfig, offset: Vec2, perlin: Perlin, x: int, y: int): real
    requires c.noiseScale != 0.0
  {
    Layered(perlin, (x as real + offset.x) / c.noiseScale, (y as real + offset.y) / c.noiseScale,
            c.Layers(), 1.0, 1.0, Octaves(c.octaves)) * c.depth
  }

  /** `x * dx + offsetX` with dx = width / widthSegments. */
  function PosX(c: WallConfig, x: int): real
    requires c.widthSegments != 0
  {
    x as real * (c.width / c.widthSegments as real) + c.OffsetX()
  }

  /** `y * dy + offsetY` with dy = height / heightSegments. */
  function PosY(c: WallConfig, y: int): real
    requires c.heightSegments != 0
  {
    y as real * (c.height / c.heightSegments as real) + c.OffsetY()
  }

  /** `centerZ ? z - depth / 2 : z` */
  function PosZ(c: WallConfig, z: real): real {
    if c.centerZ then z - c.depth / 2.0 else z
  }

  /** The vertex in column x of line y. */
  function GridVertex(c: WallConfig, offset: Vec2, perlin: Perlin, x: nat, y: nat): Vec3
    requires c.Buildable()
  {
    Vec3(PosX(c, x), PosY(c, y), PosZ(c, WallNoise(c, offset, perlin, x, y)))
  }

  /** The UV of the vertex in column x of line y. */
  function GridUV(c: WallConfig, x: nat, y: nat): Vec2
    requires c.Buildable()
  {
    Vec2(Fraction(x, c.widthSegments), Fraction(y, c.heightSegments))
  }

  /** The first k vertices of line y. */
  function Line(c: WallConfig, offset: Vec2, perlin: Perlin, y: nat, k: nat): (r: seq<Vec3>)
    requires c.Buildable()
    ensures |r| == k
  {
    if k == 0 then [] else Line(c, offset, perlin, y, k - 1) + [GridVertex(c, offset, perlin, k - 1, y)]
  }

  /** The UVs of the first k vertices of line y. */
  function LineUVs(c: WallConfig, y: nat, k: nat): (r: seq<Vec2>)
    requires c.Buildable()
    ensures |r| == k
  {
    if k == 0 then [] else LineUVs(c, y, k - 1) + [GridUV(c, k - 1, y)]
  }

  /** The vertices of the first `rows` lines, line after line. */
  function Grid(c: WallConfig, offset: Vec2, perlin: Perlin, rows: nat): (r: seq<Vec3>)
    requires c.Buildable()
    ensures |r| == Cells(c.Columns(), rows)
  {
    if rows == 0 then [] else Grid(c, offset, perlin, rows - 1) + Line(c, offset, perlin, rows - 1, c.Columns())
  }

  /** The UVs of the first `rows` lines. */
  function GridUVs(c: WallConfig, rows: nat): (r: seq<Vec2>)
    requires c.Buildable()
    ensures |r| == Cells(c.Columns(), rows)
  {
    if rows == 0 then [] else GridUVs(c, rows - 1) + LineUVs(c, rows - 1, c.Columns())
  }

  /** Every vertex GenerateWallMesh adds, in the order it adds them. */
  function WallVertices(c: WallConfig, offset: Vec2, perlin: Perlin): (r: seq<Vec3>)
    requires c.Buildable()
    ensures |r| == c.Columns() * c.Lines()
  {
    CellsIsProduct(c.Columns(), c.Lines());
    Grid(c, offset, perlin, c.Lines())
  }

  function WallUVs(c: WallConfig): (r: seq<Vec2>)
    requires c.Buildable()
    ensures |r| == c.Columns() * c.Lines()
  {
    CellsIsProduct(c.Columns(), c.Lines());
    GridUVs(c, c.Lines())
  }

  /**
   * The two triangles of the cell in column x of line y, with w =
   * widthSegments and i = y*(w+1) + x its lower left vertex.
   */
  function Tile(w: nat, y: nat, x: nat): seq<int> {
    var i := y * (w + 1) + x;
    [i, i + w + 1, i + 1, i + 1, i + w + 1, i + w + 2]
  }

  /** The first k cells of line y. */
  function TileRow(w: nat, y: nat, k: nat): (r: seq<int>)
    ensures |r| == 6 * k
  {
    if k == 0 then [] else TileRow(w, y, k - 1) + Tile(w, y, k - 1)
  }

  /** The cells of the first `rows` lines. */
  function Tiles(w: nat, rows: nat): (r: seq<int>)
    ensures |r| == w * rows * 6
  {
    if rows == 0 then []
    else
      assert w * rows * 6 == w * (rows - 1) * 6 + 6 * w;
      Tiles(w, rows - 1) + TileRow(w, rows - 1, w)
  }

  /** Every triangle index GenerateWallMesh adds, in the order it adds them. */
  function WallTriangles(c: WallConfig): seq<int> {
    Tiles(c.TileColumns(), c.TileLines())
  }

  /** The mesh GenerateWallMesh hands to the MeshFilter and the MeshCollider. */
  function WallMeshOf(c: WallConfig, offset: Vec2, perlin: Perlin): Mesh
    requires c.Buildable()
  {
    Mesh(WallVertices(c, offset, perlin), WallUVs(c), WallTriangles(c))
  }

  // ---------------------------------------------------------------------
  // Sizes and layout

  /** One vertex and one UV per grid point, six indices per grid cell. */
  lemma WallCounts(c: WallConfig, offset: Vec2, perlin: Perlin)
    requires c.Buildable()
    ensures |WallVertices(c, offset, perlin)| == |WallUVs(c)| == c.Columns() * c.Lines()
    ensures |WallTriangles(c)| == c.TileColumns() * c.TileLines() * 6
    ensures c.widthSegments > 0 && c.heightSegments > 0 ==>
              |WallVertices(c, offset, perlin)| == (c.widthSegments + 1) * (c.heightSegments + 1) &&
              |WallTriangles(c)| == 6 * c.widthSegments * c.heightSegments
  {
    CellsIsProduct(c.Columns(), c.Lines());
  }

  lemma {:induction false} LineAt(c: WallConfig, offset: Vec2, perlin: Perlin, y: nat, k: nat, x: nat)
    requires c.Buildable() && x < k
    ensures Line(c, offset, perlin, y, k)[x] == GridVertex(c, offset, perlin, x, y)
  {
    if x < k - 1 {
      LineAt(c, offset, perlin, y, k - 1, x);
    }
  }

  lemma {:induction false} LineUVAt(c: WallConfig, y: nat, k: nat, x: nat)
    requires c.Buildable() && x < k
    ensures LineUVs(c, y, k)[x] == GridUV(c, x, y)
  {
    if x < k - 1 {
      LineUVAt(c, y, k - 1, x);
    }
  }

  lemma {:induction false} GridAt(c: WallConfig, offset: Vec2, perlin: Perlin, rows: nat, y: nat, x: nat)
    requires c.Buildable() && y < rows && x < c.Columns()
    ensures y * c.Columns() + x < |Grid(c, offset, perlin, rows)|
    ensures Grid(c, offset, perlin, rows)[y * c.Columns() + x] == GridVertex(c, offset, perlin, x, y)
  {
    var n := c.Columns();
    CellsIsProduct(n, rows);
    CellsIsProduct(n, rows - 1);
    Arith.RowMajorBound(y, x, n, rows);
    if y < rows - 1 {
      Arith.RowMajorBound(y, x, n, rows - 1);
      GridAt(c, offset, perlin, rows - 1, y, x);
    } else {
      LineAt(c, offset, perlin, y, n, x);
    }
  }

  lemma {:induction false} GridUVAt(c: WallConfig, rows: nat, y: nat, x: nat)
    requires c.Buildable() && y < rows && x < c.Columns()
    ensures y * c.Columns() + x < |GridUVs(c, rows)|
    ensures GridUVs(c, rows)[y * c.Columns() + x] == GridUV(c, x, y)
  {
    var n := c.Columns();
    CellsIsProduct(n, rows);
    CellsIsProduct(n, rows - 1);
    Arith.RowMajorBound(y, x, n, rows);
    if y < rows - 1 {
      Arith.RowMajorBound(y, x, n, rows - 1);
      GridUVAt(c, rows - 1, y, x);
    } else {
      LineUVAt(c, y, n, x);
    }
  }

  /**
   * The grid point in column x of line y (0 <= x <= widthSegments,
   * 0 <= y <= heightSegments) is vertex y*(widthSegments+1) + x, at
   * (x*dx + offsetX, y*dy + offsetY) pushed out by the noise at (x, y), with
   * UV (x/widthSegments, y/heightSegments).
   */
  lemma WallVertexAt(c: WallConfig, offset: Vec2, perlin: Perlin, x: nat, y: nat)
    requires c.Buildable() && x <= c.widthSegments && y <= c.heightSegments
    ensures y * (c.widthSegments + 1) + x < |WallVertices(c, offset, perlin)|
    ensures WallVertices(c, offset, perlin)[y * (c.widthSegments + 1) + x]
         == Vec3(PosX(c, x), PosY(c, y), PosZ(c, WallNoise(c, offset, perlin, x, y)))
    ensures WallUVs(c)[y * (c.widthSegments + 1) + x] == Vec2(Fraction(x, c.widthSegments), Fraction(y, c.heightSegments))
  {
    GridAt(c, offset, perlin, c.Lines(), y, x);
    GridUVAt(c, c.Lines(), y, x);
  }

  /**
   * The grid spans exactly width by height: the first column sits at
   * offsetX and the last at offsetX + width, so a centred wall runs from
   * -width/2 to width/2 (and likewise along y).
   */
  lemma WallSpan(c: WallConfig)
    requires c.Buildable()
    ensures PosX(c, 0) == c.OffsetX() && PosX(c, c.widthSegments) == c.OffsetX() + c.width
    ensures PosY(c, 0) == c.OffsetY() && PosY(c, c.heightSegments) == c.OffsetY() + c.height
    ensures c.centerX ==> PosX(c, 0) == -c.width / 2.0 && PosX(c, c.widthSegments) == c.width / 2.0
    ensures c.centerY ==> PosY(c, 0) == -c.height / 2.0 && PosY(c, c.heightSegments) == c.height / 2.0
  {
  }

  // ---------------------------------------------------------------------
  // Triangles

  lemma {:induction false} TileRowAt(w: nat, y: nat, k: nat, x: nat, t: nat)
    requires x < k && t < 6
    ensures TileRow(w, y, k)[6 * x + t] == Tile(w, y, x)[t]
  {
    if x < k - 1 {
      TileRowAt(w, y, k - 1, x, t);
    }
  }

  /** The triangles of the cell in column x of line y are entries 6*(y*w + x) to 6*(y*w + x) + 5. */
  lemma {:induction false} TilesAt(w: nat, rows: nat, y: nat, x: nat, t: nat)
    requires y < rows && x < w && t < 6
    ensures (y * w + x) * 6 + t < |Tiles(w, rows)|
    ensures Tiles(w, rows)[(y * w + x) * 6 + t] == Tile(w, y, x)[t]
  {
    Arith.RowMajorBound(y, x, w, rows);
    assert (y * w + x) * 6 + t < w * rows * 6;
    if y < rows - 1 {
      Arith.RowMajorBound(y, x, w, rows - 1);
      TilesAt(w, rows - 1, y, x, t);
    } else {
      assert w * (rows - 1) * 6 == y * w * 6;
      TileRowAt(w, y, w, x, t);
    }
  }

  /** The triangle cursor after the cells of the first `rows` lines. */
  lemma TilesLength(w: nat, rows: nat)
    ensures |Tiles(w, rows)| == Cells(6 * w, rows)
  {
    CellsIsProduct(6 * w, rows);
    assert w * rows * 6 == rows * (6 * w);
  }

  /**
   * The cell in column x of line y names the grid points (x, y), (x+1, y),
   * (x, y+1) and (x+1, y+1) only; its last index is the upper right one.
   */
  lemma TileInRange(w: nat, y: nat, x: nat)
    requires x < w
    ensures forall t :: 0 <= t < 6 ==> y * (w + 1) <= Tile(w, y, x)[t] <= y * (w + 1) + x + w + 2
    ensures Tile(w, y, x)[5] == (y + 1) * (w + 1) + x + 1
  {
  }

  lemma {:induction false} TileRowInRange(w: nat, y: nat, k: nat)
    requires k <= w
    ensures forall t :: 0 <= t < |TileRow(w, y, k)| ==> 0 <= TileRow(w, y, k)[t] < (y + 2) * (w + 1)
  {
    if k > 0 {
      TileRowInRange(w, y, k - 1);
      TileInRange(w, y, k - 1);
      assert (y + 2) * (w + 1) == y * (w + 1) + 2 * w + 2;
      Arith.MulMono(0, y, w + 1);
    }
  }

  /** The cells of the first `rows` lines name only points of the first rows+1 lines. */
  lemma {:induction false} TilesInRange(w: nat, rows: nat)
    ensures forall t :: 0 <= t < |Tiles(w, rows)| ==> 0 <= Tiles(w, rows)[t] < (rows + 1) * (w + 1)
  {
    if rows > 0 {
      TilesInRange(w, rows - 1);
      TileRowInRange(w, rows - 1, w);
      Arith.MulMono(rows, rows + 1, w + 1);
    }
  }

  /** The last triangle entry, i + widthSegments + 2 of the last cell, is the last vertex. */
  lemma LastTileIsLastVertex(c: WallConfig, offset: Vec2, perlin: Perlin)
    requires c.Buildable() && c.widthSegments > 0 && c.heightSegments > 0
    ensures |WallTriangles(c)| > 0
    ensures WallTriangles(c)[|WallTriangles(c)| - 1] == |WallVertices(c, offset, perlin)| - 1
  {
    var w, h := c.widthSegments, c.heightSegments;
    TilesAt(w, h, h - 1, w - 1, 5);
    assert ((h - 1) * w + (w - 1)) * 6 + 5 == w * h * 6 - 1;
    assert (h - 1) * (w + 1) + (w - 1) + w + 2 == (w + 1) * (h + 1) - 1;
  }

  /** Every triangle index names a vertex of the grid. */
  lemma WallTrianglesInRange(c: WallConfig)
    requires c.Buildable()
    ensures forall t :: 0 <= t < |WallTriangles(c)| ==> 0 <= WallTriangles(c)[t] < c.Columns() * c.Lines()
  {
    var w, rows := c.TileColumns(), c.TileLines();
    TilesInRange(w, rows);
    if w > 0 && rows > 0 {
      assert (rows + 1) * (w + 1) == c.Columns() * c.Lines();
    }
  }

  /** The buffers form a mesh the engine accepts. */
  lemma WallWellFormed(c: WallConfig, offset: Vec2, perlin: Perlin)
    requires c.Buildable()
    ensures WellFormed(WallMeshOf(c, offset, perlin))
  {
    WallCounts(c, offset, perlin);
    WallTrianglesInRange(c);
    assert |WallTriangles(c)| == 3 * (2 * c.TileColumns() * c.TileLines());
  }

  // ---------------------------------------------------------------------
  // Depth

  /** With no octaves the wall is flat: every point sits at z = 0 (or -depth/2 when centred). */
  lemma FlatWithoutOctaves(c: WallConfig, offset: Vec2, perlin: Perlin, x: nat, y: nat)
    requires c.Buildable() && c.octaves <= 0
    ensures WallNoise(c, offset, perlin, x, y) == 0.0
    ensures GridVertex(c, offset, perlin, x, y).z == if c.centerZ then -c.depth / 2.0 else 0.0
  {
  }

  /**
   * GenerateNoise is depth times the plain series of the octaves, octave o
   * sampled at lacunarity^o and weighed by persistence^o (OctavePowers), with
   * no division by the total amplitude.
   */
  lemma WallNoiseIsPowerSum(c: WallConfig, offset: Vec2, perlin: Perlin, x: int, y: int)
    requires c.noiseScale != 0.0
    ensures WallNoise(c, offset, perlin, x, y)
         == PowerSum(perlin, (x as real + offset.x) / c.noiseScale, (y as real + offset.y) / c.noiseScale,
                     c.Layers(), 1.0, 1.0, Octaves(c.octaves)) * c.depth
  {
    LayeredIsPowerSum(perlin, (x as real + offset.x) / c.noiseScale, (y as real + offset.y) / c.noiseScale,
                      c.Layers(), 1.0, 1.0, Octaves(c.octaves));
  }

  /**
   * A Perlin function with values in [lo, hi] keeps the noise between
   * lo * depth * W and hi * depth * W, where W is the total amplitude
   * 1 + persistence + persistence^2 + ... of the octaves.
   */
  lemma WallNoiseBetween(c: WallConfig, offset: Vec2, perlin: Perlin, x: int, y: int, lo: real, hi: real)
    requires c.noiseScale != 0.0 && c.persistence >= 0.0 && c.depth >= 0.0
    requires forall a, b :: lo <= perlin(a, b) <= hi
    ensures var w := Weight(c.Layers(), 1.0, Octaves(c.octaves));
            lo * w * c.depth <= WallNoise(c, offset, perlin, x, y) <= hi * w * c.depth
  {
    var px, py := (x as real + offset.x) / c.noiseScale, (y as real + offset.y) / c.noiseScale;
    var n := Octaves(c.octaves);
    BoundedPerlinSamples(perlin, px, py, c.Layers(), 1.0, n, lo, hi);
    LayeredBetween(perlin, px, py, c.Layers(), 1.0, 1.0, n, lo, hi);
    var sum := Layered(perlin, px, py, c.Layers(), 1.0, 1.0, n);
    ScaleLe(lo * Weight(c.Layers(), 1.0, n), sum, c.depth);
    ScaleLe(sum, hi * Weight(c.Layers(), 1.0, n), c.depth);
  }

  /**
   * The noise is not divided by the total amplitude, so the wall can stand
   * out further than `depth`: with the default four octaves and persistence
   * 0.5, a Perlin function that is 1 everywhere pushes every point out by
   * 1.875 * depth.
   */
  lemma WallDeeperThanDepth(c: WallConfig, offset: Vec2, perlin: Perlin, x: int, y: int)
    requires c.noiseScale != 0.0 && c.octaves == 4 && c.persistence == 0.5
    requires forall a, b :: perlin(a, b) == 1.0
    ensures WallNoise(c, offset, perlin, x, y) == 1.875 * c.depth
  {
    var px, py := (x as real + offset.x) / c.noiseScale, (y as real + offset.y) / c.noiseScale;
    BoundedPerlinSamples(perlin, px, py, c.Layers(), 1.0, 4, 1.0, 1.0);
    LayeredOfConstant(perlin, px, py, c.Layers(), 1.0, 1.0, 4, 1.0);
  }
}
