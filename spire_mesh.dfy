/**
 * The mesh ClimbingSpire.GenerateSpire builds, as values: a tube of
 * heightSegments+1 rings of radialSegments vertices displaced outwards by
 * normalised layered noise, two cap centres, copies of the bottom and top
 * rings flattened onto the caps, the side quads wrapping around each ring,
 * and the two cap fans.
 */
module SpireMesh {
  import opened Geometry
  import opened Noise
  import opened Grids
  import Arith

  /** The inspector fields GenerateSpire reads. */
  datatype SpireConfig = SpireConfig(radius: real, height: real, radialSegments: int, heightSegments: int,
                                     noiseAmplitude: real, noiseScale: real,
                                     octaves: int, persistence: real, lacunarity: real)
  {
    function Layers(): Layering {
      Layering(octaves, persistence, lacunarity)
    }

    /** maxAmplitude, the total amplitude the noise is divided by. */
    function MaxAmplitude(): real {
      Weight(Layers(), 1.0, Octaves(octaves))
    }

    /**
     * The settings GenerateSpire builds a mesh from without an exception and
     * without dividing by zero: array sizes that are not negative, at least
     * one ring of quads (v = y / heightSegments), and a total amplitude
     * that is not zero.
     */
    predicate Buildable() {
      radialSegments >= 0 && heightSegments >= 1 && MaxAmplitude() != 0.0
    }

    /** The [Range] bounds the inspector puts on the fields. */
    predicate InInspectorRanges() {
      3 <= radialSegments <= 128 && 1 <= heightSegments <= 128 &&
      0.0 <= noiseAmplitude <= 10.0 && 0.0 <= noiseScale <= 100.0 &&
      1 <= octaves <= 5 && 0.0 <= persistence <= 1.0 && 0.0 <= lacunarity <= 5.0
    }

    function SideCount(): int {
      radialSegments * (heightSegments + 1)
    }

    function VertexCount(): int {
      SideCount() + 2 + radialSegments * 2
    }

    /** How many triangle entries the side quads take. */
    function QuadEntries(): int {
      radialSegments * heightSegments * 6
    }

    function TriangleCount(): int {
      radialSegments * heightSegments * 6 + radialSegments * 3 * 2
    }
  }

  /** `u * Mathf.PI * 2` */
  function Angle(u: real): real {
    u * PI * 2.0
  }

  /**
   * The noise coordinate around the ring: i / radialSegments, with the last
   * segment wrapped to 0, folded about one half so that both halves of the
   * ring read the same noise.
   */
  function MirroredU(i: int, n: int): (r: real)
    requires 0 <= i < n
    ensures 0.0 <= r <= 0.5
    ensures i == 0 || i == n - 1 ==> r == 0.0
  {
    var u := Fraction(i, n);
    assert u < 1.0 by { Arith.FractionBelowOne(i, n); }
    var wrappedU := if i == n - 1 then 0.0 else u;
    if wrappedU <= 0.5 then wrappedU else 1.0 - wrappedU
  }

  /** totalNoise / maxAmplitude for the noise coordinates (mu, v). */
  function NormalizedNoise(c: SpireConfig, perlin: Perlin, mu: real, v: real): real
    requires c.MaxAmplitude() != 0.0
  {
    Layered(perlin, mu, v, c.Layers(), c.noiseScale, 1.0, Octaves(c.octaves)) / c.MaxAmplitude()
  }

  /** `radius + normalizedNoise * noiseAmplitude` */
  function DisplacedRadius(c: SpireConfig, perlin: Perlin, mu: real, v: real): real
    requires c.MaxAmplitude() != 0.0
  {
    c.radius + NormalizedNoise(c, perlin, mu, v) * c.noiseAmplitude
  }

  /** The point at height yPos in direction (x, z) at distance r from the axis. */
  function OnRing(x: real, z: real, r: real, yPos: real): Vec3 {
    Vec3(x * r, yPos, z * r)
  }

  /** `v * height` */
  function Level(v: real, height: real): real {
    v * height
  }

  /** Side vertex i of ring y. */
  function SideVertex(c: SpireConfig, m: Mathf, y: nat, i: nat): Vec3
    requires i < c.radialSegments && c.Buildable()
  {
    var u := Fraction(i, c.radialSegments);
    var v := Fraction(y, c.heightSegments);
    OnRing(m.cos(Angle(u)), m.sin(Angle(u)), DisplacedRadius(c, m.perlinNoise, MirroredU(i, c.radialSegments), v),
           Level(v, c.height))
  }

  /** The UV of side vertex i of ring y. */
  function SideUV(c: SpireConfig, y: nat, i: nat): Vec2
    requires c.radialSegments > 0 && c.heightSegments != 0
  {
    Vec2(Fraction(i, c.radialSegments), Fraction(y, c.heightSegments))
  }

  /** The first k side vertices of ring y. */
  function Ring(c: SpireConfig, m: Mathf, y: nat, k: nat): (r: seq<Vec3>)
    requires c.Buildable() && k <= c.radialSegments
    ensures |r| == k
  {
    if k == 0 then [] else Ring(c, m, y, k - 1) + [SideVertex(c, m, y, k - 1)]
  }

  /** The UVs of the first k side vertices of ring y. */
  function RingUVs(c: SpireConfig, y: nat, k: nat): (r: seq<Vec2>)
    requires c.Buildable() && k <= c.radialSegments
    ensures |r| == k
  {
    if k == 0 then [] else RingUVs(c, y, k - 1) + [SideUV(c, y, k - 1)]
  }

  /** The side vertices of the first `rows` rings, ring after ring. */
  function Side(c: SpireConfig, m: Mathf, rows: nat): (r: seq<Vec3>)
    requires c.Buildable()
    ensures |r| == Cells(c.radialSegments, rows)
  {
    if rows == 0 then [] else Side(c, m, rows - 1) + Ring(c, m, rows - 1, c.radialSegments)
  }

  /** The UVs of the first `rows` rings. */
  function SideUVRows(c: SpireConfig, rows: nat): (r: seq<Vec2>)
    requires c.Buildable()
    ensures |r| == Cells(c.radialSegments, rows)
  {
    if rows == 0 then [] else SideUVRows(c, rows - 1) + RingUVs(c, rows - 1, c.radialSegments)
  }

  /** The side vertices: rings 0 to heightSegments. */
  function SideVertices(c: SpireConfig, m: Mathf): (r: seq<Vec3>)
    requires c.Buildable()
    ensures |r| == c.SideCount()
  {
    CellsIsProduct(c.radialSegments, c.heightSegments + 1);
    Side(c, m, c.heightSegments + 1)
  }

  function SideUVs(c: SpireConfig): (r: seq<Vec2>)
    requires c.Buildable()
    ensures |r| == c.SideCount()
  {
    CellsIsProduct(c.radialSegments, c.heightSegments + 1);
    SideUVRows(c, c.heightSegments + 1)
  }

  /** The first k vertices of a cap rim: vertices start.. of `side` moved to height `level`. */
  function Rim(side: seq<Vec3>, start: nat, k: nat, level: real): (r: seq<Vec3>)
    requires start + k <= |side|
    ensures |r| == k
  {
    if k == 0 then []
    else Rim(side, start, k - 1, level) + [Vec3(side[start + k - 1].x, level, side[start + k - 1].z)]
  }

  /**
   * The side followed by the cap vertices: the bottom centre, the top
   * centre at `height`, the first ring moved to height 0 and the last ring
   * (which starts at n*rows) moved to `height`.
   */
  function Capped(side: seq<Vec3>, n: nat, rows: nat, height: real): seq<Vec3>
    requires n * rows + n <= |side|
  {
    side + [Vec3(0.0, 0.0, 0.0), Vec3(0.0, height, 0.0)]
    + Rim(side, 0, n, 0.0) + Rim(side, n * rows, n, height)
  }

  /** Every vertex GenerateSpire writes, in the order of its writes. */
  function SpireVertices(c: SpireConfig, m: Mathf): (r: seq<Vec3>)
    requires c.Buildable()
  {
    var side := SideVertices(c, m);
    assert c.radialSegments * c.heightSegments + c.radialSegments == |side|;
    Capped(side, c.radialSegments, c.heightSegments, c.height)
  }

  /** The UVs: the side is mapped onto the unit square; cap UVs keep their default of zero. */
  function SpireUVs(c: SpireConfig): (r: seq<Vec2>)
    requires c.Buildable()
  {
    SideUVs(c) + seq(2 + c.radialSegments * 2, _ => Zero2)
  }

  /** The vertex count split as GenerateSpire's writes advance: rings 0 to heightSegments-1, the top ring, the caps. */
  lemma VertexCountSplit(c: SpireConfig)
    requires c.Buildable()
    ensures c.SideCount() == c.radialSegments * c.heightSegments + c.radialSegments
    ensures c.VertexCount() == c.SideCount() + 2 + 2 * c.radialSegments
  {
  }

  lemma SpireVerticesOfSide(c: SpireConfig, m: Mathf, side: seq<Vec3>)
    requires c.Buildable() && side == SideVertices(c, m)
    ensures c.radialSegments * c.heightSegments + c.radialSegments <= |side|
    ensures SpireVertices(c, m) == Capped(side, c.radialSegments, c.heightSegments, c.height)
  {
  }

  /** A UV buffer holding the side UVs and zeroes after them holds SpireUVs. */
  lemma UVsWithZeroCaps(s: seq<Vec2>, c: SpireConfig)
    requires c.Buildable() && |s| == c.VertexCount() && s[..c.SideCount()] == SideUVs(c)
    requires forall j :: c.SideCount() <= j < |s| ==> s[j] == Zero2
    ensures s == SpireUVs(c)
  {
    assert s == s[..c.SideCount()] + s[c.SideCount()..];
  }

  /** `(i + 1) % radialSegments`, the next segment round the ring. */
  function Next(i: int, n: int): int
    requires n != 0
  {
    (i + 1) % n
  }

  /** The two triangles of the quad between segment i and the next, from ring y to ring y+1. */
  function Quad(n: int, y: int, i: int): seq<int>
    requires n != 0
  {
    var current := y * n + i;
    var next := y * n + Next(i, n);
    [current, current + n, next, next, current + n, next + n]
  }

  /** The first k quads of ring y. */
  function QuadRow(n: nat, y: nat, k: nat): (r: seq<int>)
    requires k <= n
    ensures |r| == 6 * k
  {
    if k == 0 then [] else QuadRow(n, y, k - 1) + Quad(n, y, k - 1)
  }

  /** The quads of the first `rows` rings. */
  function Quads(n: nat, rows: nat): (r: seq<int>)
    ensures |r| == n * rows * 6
  {
    if rows == 0 then []
    else
      assert n * rows * 6 == n * (rows - 1) * 6 + 6 * n;
      Quads(n, rows - 1) + QuadRow(n, rows - 1, n)
  }

  /** The first k bottom cap triangles: rim i, rim next, centre. */
  function BottomFan(n: nat, rimStart: int, center: int, k: nat): (r: seq<int>)
    requires k <= n
    ensures |r| == 3 * k
  {
    if k == 0 then []
    else BottomFan(n, rimStart, center, k - 1) + [rimStart + (k - 1), rimStart + Next(k - 1, n), center]
  }

  /** The first k top cap triangles: rim next, rim i, centre. */
  function TopFan(n: nat, rimStart: int, center: int, k: nat): (r: seq<int>)
    requires k <= n
    ensures |r| == 3 * k
  {
    if k == 0 then []
    else TopFan(n, rimStart, center, k - 1) + [rimStart + Next(k - 1, n), rimStart + (k - 1), center]
  }

  /** Every triangle index GenerateSpire writes, in the order of its writes. */
  function SpireTriangles(c: SpireConfig): (r: seq<int>)
    requires c.Buildable()
  {
    var n := c.radialSegments;
    var bottomRimStart := c.SideCount() + 2;
    assert |Quads(n, c.heightSegments)| == c.QuadEntries();
    Quads(n, c.heightSegments)
    + BottomFan(n, bottomRimStart, c.SideCount(), n)
    + TopFan(n, bottomRimStart + n, c.SideCount() + 1, n)
  }

  /** The mesh GenerateSpire hands to the MeshFilter and the MeshCollider. */
  function SpireMeshOf(c: SpireConfig, m: Mathf): Mesh
    requires c.Buildable()
  {
    Mesh(SpireVertices(c, m), SpireUVs(c), SpireTriangles(c))
  }

  // ---------------------------------------------------------------------
  // Sizes and layout

  /** The buffers have the sizes GenerateSpire allocates them with. */
  lemma SpireCounts(c: SpireConfig, m: Mathf)
    requires c.Buildable()
    ensures |SpireVertices(c, m)| == c.VertexCount() == c.radialSegments * (c.heightSegments + 1) + 2 + 2 * c.radialSegments
    ensures |SpireUVs(c)| == c.VertexCount()
    ensures |SpireTriangles(c)| == c.TriangleCount() == c.radialSegments * c.heightSegments * 6 + c.radialSegments * 6
  {
  }

  lemma {:induction false} RingAt(c: SpireConfig, m: Mathf, y: nat, k: nat, i: nat)
    requires c.Buildable() && i < k <= c.radialSegments
    ensures Ring(c, m, y, k)[i] == SideVertex(c, m, y, i)
  {
    if i < k - 1 {
      RingAt(c, m, y, k - 1, i);
    }
  }

  lemma {:induction false} RingUVAt(c: SpireConfig, y: nat, k: nat, i: nat)
    requires c.Buildable() && i < k <= c.radialSegments
    ensures RingUVs(c, y, k)[i] == SideUV(c, y, i)
  {
    if i < k - 1 {
      RingUVAt(c, y, k - 1, i);
    }
  }

  /** Side vertex i of ring y sits at index y*radialSegments + i. */
  lemma {:induction false} SideAt(c: SpireConfig, m: Mathf, rows: nat, y: nat, i: nat)
    requires c.Buildable() && y < rows && i < c.radialSegments
    ensures y * c.radialSegments + i < |Side(c, m, rows)|
    ensures Side(c, m, rows)[y * c.radialSegments + i] == SideVertex(c, m, y, i)
  {
    var n := c.radialSegments;
    CellsIsProduct(n, rows);
    CellsIsProduct(n, rows - 1);
    Arith.RowMajorBound(y, i, n, rows);
    if y < rows - 1 {
      Arith.RowMajorBound(y, i, n, rows - 1);
      SideAt(c, m, rows - 1, y, i);
    } else {
      RingAt(c, m, y, n, i);
    }
  }

  lemma {:induction false} SideUVAt(c: SpireConfig, rows: nat, y: nat, i: nat)
    requires c.Buildable() && y < rows && i < c.radialSegments
    ensures y * c.radialSegments + i < |SideUVRows(c, rows)|
    ensures SideUVRows(c, rows)[y * c.radialSegments + i] == SideUV(c, y, i)
  {
    var n := c.radialSegments;
    CellsIsProduct(n, rows);
    CellsIsProduct(n, rows - 1);
    Arith.RowMajorBound(y, i, n, rows);
    if y < rows - 1 {
      Arith.RowMajorBound(y, i, n, rows - 1);
      SideUVAt(c, rows - 1, y, i);
    } else {
      RingUVAt(c, y, n, i);
    }
  }

  /**
   * Side vertex i of ring y is stored at y*radialSegments + i, at height
   * y/heightSegments*height.
   */
  lemma SideVertexAt(c: SpireConfig, m: Mathf, y: nat, i: nat)
    requires c.Buildable() && y <= c.heightSegments && i < c.radialSegments
    ensures y * c.radialSegments + i < c.SideCount()
    ensures SpireVertices(c, m)[y * c.radialSegments + i] == SideVertex(c, m, y, i)
    ensures SpireVertices(c, m)[y * c.radialSegments + i].y == Fraction(y, c.heightSegments) * c.height
  {
    SideAt(c, m, c.heightSegments + 1, y, i);
    var side := SideVertices(c, m);
    assert SpireVertices(c, m)[y * c.radialSegments + i] == side[y * c.radialSegments + i];
    assert SideVertex(c, m, y, i).y == Level(Fraction(y, c.heightSegments), c.height);
  }

  /** The UV of side vertex i of ring y is (i/radialSegments, y/heightSegments). */
  lemma SideUVOf(c: SpireConfig, y: nat, i: nat)
    requires c.Buildable() && y <= c.heightSegments && i < c.radialSegments
    ensures y * c.radialSegments + i < c.SideCount()
    ensures SpireUVs(c)[y * c.radialSegments + i] == Vec2(Fraction(i, c.radialSegments), Fraction(y, c.heightSegments))
  {
    SideUVAt(c, c.heightSegments + 1, y, i);
    assert SpireUVs(c)[y * c.radialSegments + i] == SideUVs(c)[y * c.radialSegments + i];
  }

  lemma {:induction false} RimAt(side: seq<Vec3>, start: nat, k: nat, level: real, i: nat)
    requires start + k <= |side| && i < k
    ensures Rim(side, start, k, level)[i] == Vec3(side[start + i].x, level, side[start + i].z)
  {
    if i < k - 1 {
      RimAt(side, start, k - 1, level, i);
    }
  }

  /** A rim only reads the vertices it copies, so any extension of them gives the same rim. */
  lemma {:induction false} RimOfPrefix(s: seq<Vec3>, t: seq<Vec3>, start: nat, k: nat, level: real)
    requires start + k <= |s| <= |t| && s == t[..|s|]
    ensures Rim(t, start, k, level) == Rim(s, start, k, level)
  {
    if k > 0 {
      RimOfPrefix(s, t, start, k - 1, level);
    }
  }

  /**
   * After the side come the bottom and top cap centres, then the bottom rim,
   * a copy of the first ring at height 0, then the top rim, a copy of the
   * last ring at full height. The cap vertices keep a zero UV.
   */
  lemma CapVerticesAt(c: SpireConfig, m: Mathf, i: nat)
    requires c.Buildable() && i < c.radialSegments
    ensures var vs := SpireVertices(c, m); var side := c.SideCount(); var n := c.radialSegments;
            0 <= n * c.heightSegments + i < side &&
            vs[side] == Vec3(0.0, 0.0, 0.0) &&
            vs[side + 1] == Vec3(0.0, c.height, 0.0) &&
            vs[side + 2 + i] == Vec3(vs[i].x, 0.0, vs[i].z) &&
            vs[side + 2 + n + i] == Vec3(vs[n * c.heightSegments + i].x, c.height, vs[n * c.heightSegments + i].z)
    ensures forall j :: c.SideCount() <= j < c.VertexCount() ==> SpireUVs(c)[j] == Zero2
  {
    var side := SideVertices(c, m);
    var n := c.radialSegments;
    Arith.RowMajorBound(c.heightSegments, i, n, c.heightSegments + 1);
    RimAt(side, 0, n, 0.0, i);
    RimAt(side, n * c.heightSegments, n, c.height, i);
  }

  // ---------------------------------------------------------------------
  // Triangles

  /** `(i + 1) % radialSegments` is the next segment, wrapping from the last to the first. */
  lemma NextWraps(i: int, n: int)
    requires 0 <= i < n
    ensures Next(i, n) == if i + 1 < n then i + 1 else 0
    ensures 0 <= Next(i, n) < n
  {
  }

  lemma {:induction false} QuadRowAt(n: nat, y: nat, k: nat, i: nat, t: nat)
    requires i < k <= n && t < 6
    ensures QuadRow(n, y, k)[6 * i + t] == Quad(n, y, i)[t]
  {
    if i < k - 1 {
      QuadRowAt(n, y, k - 1, i, t);
    }
  }

  /**
   * The quad between segment i and the next, from ring y up to ring y+1,
   * occupies triangle entries 6*(y*radialSegments + i) to 6*(y*radialSegments + i) + 5.
   */
  lemma {:induction false} QuadsAt(n: nat, rows: nat, y: nat, i: nat, t: nat)
    requires y < rows && i < n && t < 6
    ensures (y * n + i) * 6 + t < |Quads(n, rows)|
    ensures Quads(n, rows)[(y * n + i) * 6 + t] == Quad(n, y, i)[t]
  {
    Arith.RowMajorBound(y, i, n, rows);
    assert (y * n + i) * 6 + t < n * rows * 6;
    if y < rows - 1 {
      Arith.RowMajorBound(y, i, n, rows - 1);
      QuadsAt(n, rows - 1, y, i, t);
    } else {
      assert n * (rows - 1) * 6 == y * n * 6;
      QuadRowAt(n, y, n, i, t);
    }
  }

  /** The triangle cursor after the quads of the first `rows` rings. */
  lemma QuadsLength(n: nat, rows: nat)
    ensures |Quads(n, rows)| == Cells(6 * n, rows)
  {
    CellsIsProduct(6 * n, rows);
    assert n * rows * 6 == rows * (6 * n);
  }

  /** A quad of ring y only names vertices of rings y and y+1. */
  lemma QuadInRange(n: nat, y: nat, i: nat)
    requires i < n
    ensures forall t :: 0 <= t < 6 ==> y * n <= Quad(n, y, i)[t] < y * n + 2 * n
  {
    NextWraps(i, n);
  }

  lemma {:induction false} QuadRowInRange(n: nat, y: nat, k: nat)
    requires k <= n
    ensures forall t :: 0 <= t < |QuadRow(n, y, k)| ==> y * n <= QuadRow(n, y, k)[t] < y * n + 2 * n
  {
    if k > 0 {
      QuadRowInRange(n, y, k - 1);
      QuadInRange(n, y, k - 1);
    }
  }

  /** The quads of the first `rows` rings name only vertices of the first rows+1 rings. */
  lemma {:induction false} QuadsInRange(n: nat, rows: nat)
    ensures forall t :: 0 <= t < |Quads(n, rows)| ==> 0 <= Quads(n, rows)[t] < (rows + 1) * n
  {
    if rows > 0 {
      QuadsInRange(n, rows - 1);
      QuadRowInRange(n, rows - 1, n);
      Arith.MulMono(0, rows - 1, n);
      assert (rows - 1) * n + 2 * n == (rows + 1) * n;
      Arith.MulMono(rows, rows + 1, n);
    }
  }

  lemma {:induction false} BottomFanAt(n: nat, rimStart: int, center: int, k: nat, i: nat)
    requires i < k <= n
    ensures BottomFan(n, rimStart, center, k)[3 * i..3 * i + 3] == [rimStart + i, rimStart + Next(i, n), center]
  {
    if i < k - 1 {
      BottomFanAt(n, rimStart, center, k - 1, i);
      assert BottomFan(n, rimStart, center, k)[3 * i..3 * i + 3] == BottomFan(n, rimStart, center, k - 1)[3 * i..3 * i + 3];
    }
  }

  lemma {:induction false} TopFanAt(n: nat, rimStart: int, center: int, k: nat, i: nat)
    requires i < k <= n
    ensures TopFan(n, rimStart, center, k)[3 * i..3 * i + 3] == [rimStart + Next(i, n), rimStart + i, center]
  {
    if i < k - 1 {
      TopFanAt(n, rimStart, center, k - 1, i);
      assert TopFan(n, rimStart, center, k)[3 * i..3 * i + 3] == TopFan(n, rimStart, center, k - 1)[3 * i..3 * i + 3];
    }
  }

  /** A fan names only its centre and vertices of its rim. */
  lemma {:induction false} FansInRange(n: nat, rimStart: int, center: int, k: nat)
    requires k <= n
    ensures forall t :: 0 <= t < |BottomFan(n, rimStart, center, k)| ==>
              BottomFan(n, rimStart, center, k)[t] == center ||
              rimStart <= BottomFan(n, rimStart, center, k)[t] < rimStart + n
    ensures forall t :: 0 <= t < |TopFan(n, rimStart, center, k)| ==>
              TopFan(n, rimStart, center, k)[t] == center ||
              rimStart <= TopFan(n, rimStart, center, k)[t] < rimStart + n
  {
    if k > 0 {
      FansInRange(n, rimStart, center, k - 1);
      NextWraps(k - 1, n);
    }
  }

  /** The i-th triple of the middle and of the last of three concatenated buffers. */
  lemma TriplesOfConcat(q: seq<int>, b: seq<int>, t: seq<int>, i: nat)
    requires 3 * i + 3 <= |b| == |t|
    ensures (q + b + t)[|q| + 3 * i..|q| + 3 * i + 3] == b[3 * i..3 * i + 3]
    ensures (q + b + t)[|q| + |b| + 3 * i..|q| + |b| + 3 * i + 3] == t[3 * i..3 * i + 3]
  {
    assert (q + b + t)[|q| + 3 * i..|q| + 3 * i + 3] == (q + b)[|q| + 3 * i..|q| + 3 * i + 3];
  }

  /**
   * Triangle i of the top cap lists the same rim segment as triangle i of
   * the bottom cap in the opposite order, so the two caps face opposite ways.
   */
  lemma CapWindings(c: SpireConfig, i: nat)
    requires c.Buildable() && i < c.radialSegments
    ensures var ts := SpireTriangles(c); var n := c.radialSegments;
            var bottom := c.QuadEntries() + 3 * i; var top := bottom + 3 * n;
            var bottomRimStart := c.SideCount() + 2; var topRimStart := bottomRimStart + n;
            top + 3 <= |ts| &&
            ts[bottom..bottom + 3] == [bottomRimStart + i, bottomRimStart + Next(i, n), c.SideCount()] &&
            ts[top..top + 3] == [topRimStart + Next(i, n), topRimStart + i, c.SideCount() + 1]
  {
    var n := c.radialSegments;
    var quads := Quads(n, c.heightSegments);
    var bottomRimStart := c.SideCount() + 2;
    var bottomFan := BottomFan(n, bottomRimStart, c.SideCount(), n);
    var topFan := TopFan(n, bottomRimStart + n, c.SideCount() + 1, n);
    BottomFanAt(n, bottomRimStart, c.SideCount(), n, i);
    TopFanAt(n, bottomRimStart + n, c.SideCount() + 1, n, i);
    TriplesOfConcat(quads, bottomFan, topFan, i);
  }

  /** Every triangle index names a vertex, and the side quads name side vertices only. */
  lemma SpireTrianglesInRange(c: SpireConfig)
    requires c.Buildable()
    ensures forall t :: 0 <= t < c.radialSegments * c.heightSegments * 6 ==> 0 <= SpireTriangles(c)[t] < c.SideCount()
    ensures forall t :: 0 <= t < |SpireTriangles(c)| ==> 0 <= SpireTriangles(c)[t] < c.VertexCount()
  {
    var n := c.radialSegments;
    var side := c.SideCount();
    var quads := Quads(n, c.heightSegments);
    var bottomFan := BottomFan(n, side + 2, side, n);
    var topFan := TopFan(n, side + 2 + n, side + 1, n);
    QuadsInRange(n, c.heightSegments);
    assert (c.heightSegments + 1) * n == side;
    FansInRange(n, side + 2, side, n);
    FansInRange(n, side + 2 + n, side + 1, n);
    assert SpireTriangles(c) == quads + bottomFan + topFan;
  }

  /** The buffers form a mesh the engine accepts. */
  lemma SpireWellFormed(c: SpireConfig, m: Mathf)
    requires c.Buildable()
    ensures WellFormed(SpireMeshOf(c, m))
  {
    SpireTrianglesInRange(c);
    var n := c.radialSegments;
    assert |SpireTriangles(c)| == 3 * (2 * n * c.heightSegments + 2 * n);
  }

  // ---------------------------------------------------------------------
  // The displaced radius

  /**
   * With at least one octave and a non-negative persistence the total
   * amplitude is at least 1, so the division is defined.
   */
  lemma MaxAmplitudeAtLeastOne(c: SpireConfig)
    requires c.octaves >= 1 && c.persistence >= 0.0
    ensures c.MaxAmplitude() >= 1.0
  {
    WeightAtLeastFirst(c.Layers(), 1.0, Octaves(c.octaves));
  }

  /** Every setting the inspector allows builds a mesh. */
  lemma InspectorRangesBuildable(c: SpireConfig)
    requires c.InInspectorRanges()
    ensures c.Buildable() && c.MaxAmplitude() >= 1.0
  {
    MaxAmplitudeAtLeastOne(c);
  }

  /**
   * The slider setters keep a buildable setting buildable: the amplitude,
   * the scale and the lacunarity do not enter the total amplitude, and
   * SetPersistence halves a value that is not negative.
   */
  lemma SettersKeepBuildable(c: SpireConfig, value: real)
    requires c.InInspectorRanges()
    ensures c.(noiseAmplitude := value * 10.0).Buildable()
    ensures c.(noiseScale := value * 100.0).Buildable()
    ensures c.(lacunarity := value * 10.0).Buildable()
    ensures value >= 0.0 ==> c.(persistence := value / 2.0).Buildable()
  {
    MaxAmplitudeAtLeastOne(c.(noiseAmplitude := value * 10.0));
    MaxAmplitudeAtLeastOne(c.(noiseScale := value * 100.0));
    MaxAmplitudeAtLeastOne(c.(lacunarity := value * 10.0));
    if value >= 0.0 {
      MaxAmplitudeAtLeastOne(c.(persistence := value / 2.0));
    }
  }

  /**
   * The normalised noise is an amplitude-weighted average of the octave
   * samples: it lies within any bounds on the samples, in particular between
   * the smallest and the largest.
   */
  lemma NormalizedNoiseBetween(c: SpireConfig, perlin: Perlin, mu: real, v: real, lo: real, hi: real)
    requires c.octaves >= 1 && c.persistence >= 0.0
    requires SamplesWithin(perlin, mu, v, c.Layers(), c.noiseScale, Octaves(c.octaves), lo, hi)
    ensures c.MaxAmplitude() >= 1.0
    ensures lo <= NormalizedNoise(c, perlin, mu, v) <= hi
  {
    NormalizedBetween(perlin, mu, v, c.Layers(), c.noiseScale, Octaves(c.octaves), lo, hi);
  }

  /**
   * A Perlin function with values in [lo, hi] keeps every side vertex's
   * distance from the axis within radius + [lo, hi] * noiseAmplitude
   * (with Mathf.PerlinNoise's range [0, 1]: between radius and
   * radius + noiseAmplitude).
   */
  lemma DisplacedRadiusBetween(c: SpireConfig, perlin: Perlin, mu: real, v: real, lo: real, hi: real)
    requires c.octaves >= 1 && c.persistence >= 0.0 && c.noiseAmplitude >= 0.0
    requires forall a, b :: lo <= perlin(a, b) <= hi
    ensures c.MaxAmplitude() >= 1.0
    ensures c.radius + lo * c.noiseAmplitude <= DisplacedRadius(c, perlin, mu, v) <= c.radius + hi * c.noiseAmplitude
  {
    BoundedPerlinSamples(perlin, mu, v, c.Layers(), c.noiseScale, Octaves(c.octaves), lo, hi);
    NormalizedNoiseBetween(c, perlin, mu, v, lo, hi);
    var noise := NormalizedNoise(c, perlin, mu, v);
    ScaleLe(lo, noise, c.noiseAmplitude);
    ScaleLe(noise, hi, c.noiseAmplitude);
  }

  /**
   * Without noise amplitude the side is a true cylinder: every side vertex
   * lies at distance `radius` from the axis (given cos^2 + sin^2 = 1).
   */
  lemma PerfectCylinder(c: SpireConfig, m: Mathf, y: nat, i: nat)
    requires c.Buildable() && i < c.radialSegments && c.noiseAmplitude == 0.0
    requires var a := Angle(Fraction(i, c.radialSegments));
             m.cos(a) * m.cos(a) + m.sin(a) * m.sin(a) == 1.0
    ensures var p := SideVertex(c, m, y, i); p.x * p.x + p.z * p.z == c.radius * c.radius
  {
    var a := Angle(Fraction(i, c.radialSegments));
    var x, z := m.cos(a), m.sin(a);
    var r := DisplacedRadius(c, m.perlinNoise, MirroredU(i, c.radialSegments), Fraction(y, c.heightSegments));
    assert r == c.radius;
    assert (x * r) * (x * r) + (z * r) * (z * r) == (x * x + z * z) * (r * r);
  }

  lemma Cancel(a: real, b: real, d: real)
    requires d != 0.0 && a * d == b * d
    ensures a == b
  {
    assert (a - b) * d == 0.0;
  }

  /** (n - i) / n == 1 - i / n */
  lemma FractionComplement(i: int, n: int)
    requires n > 0
    ensures Fraction(n - i, n) == 1.0 - Fraction(i, n)
  {
    var p, q, d := Fraction(i, n), Fraction(n - i, n), n as real;
    assert p * d == i as real;
    assert q * d == (n - i) as real;
    assert (1.0 - p) * d == (n - i) as real;
    Cancel(q, 1.0 - p, d);
  }

  /**
   * Segments i and n - i (2 <= i <= n - 2) read the same noise: the noise is
   * mirrored about the segment opposite the seam.
   */
  lemma MirroredSymmetric(i: int, n: int)
    requires 2 <= i <= n - 2
    ensures MirroredU(i, n) == MirroredU(n - i, n)
  {
    FractionComplement(i, n);
  }

  /**
   * Segment 0 and the last segment read the same noise, so the two rings of
   * vertices either side of the seam lie at the same distance from the axis;
   * the segment after 0 reads different noise from the last one when there
   * are at least three segments.
   */
  lemma SeamRadius(c: SpireConfig, m: Mathf, v: real)
    requires c.Buildable() && c.radialSegments >= 1
    ensures DisplacedRadius(c, m.perlinNoise, MirroredU(0, c.radialSegments), v)
         == DisplacedRadius(c, m.perlinNoise, MirroredU(c.radialSegments - 1, c.radialSegments), v)
    ensures c.radialSegments >= 3 ==> MirroredU(1, c.radialSegments) != MirroredU(c.radialSegments - 1, c.radialSegments)
  {
    if c.radialSegments >= 3 {
      assert Fraction(1, c.radialSegments) > 0.0;
    }
  }

  /** A buffer holding `before` and then the first k side vertices of ring y holds Ring(c, m, y, k) after `before`. */
  lemma {:induction false} RingWritten(s: seq<Vec3>, before: seq<Vec3>, c: SpireConfig, m: Mathf, y: nat, k: nat)
    requires c.Buildable() && k <= c.radialSegments && |before| + k <= |s|
    requires forall j :: 0 <= j < |before| ==> s[j] == before[j]
    requires forall i: nat :: i < k ==> s[|before| + i] == SideVertex(c, m, y, i)
    ensures s[..|before| + k] == before + Ring(c, m, y, k)
  {
    if k > 0 {
      RingWritten(s, before, c, m, y, k - 1);
      assert s[..|before| + k] == s[..|before| + k - 1] + [s[|before| + k - 1]];
    }
  }

  lemma {:induction false} RingUVsWritten(s: seq<Vec2>, before: seq<Vec2>, c: SpireConfig, y: nat, k: nat)
    requires c.Buildable() && k <= c.radialSegments && |before| + k <= |s|
    requires forall j :: 0 <= j < |before| ==> s[j] == before[j]
    requires forall i: nat :: i < k ==> s[|before| + i] == SideUV(c, y, i)
    ensures s[..|before| + k] == before + RingUVs(c, y, k)
  {
    if k > 0 {
      RingUVsWritten(s, before, c, y, k - 1);
      assert s[..|before| + k] == s[..|before| + k - 1] + [s[|before| + k - 1]];
    }
  }
}
