# Procedural climbing spire and random wall, modelled in Dafny

This project models the two procedural mesh generators of the MR_Basics Unity project, with the prefab scatter they both carry.

**ClimbingSpire** builds a cylindrical spire. It fills pre-sized vertex, UV and triangle arrays through advancing write cursors:
- `heightSegments + 1` rings of `radialSegments` side vertices, displaced outwards by layered Perlin noise that is normalised by its total amplitude and sampled over a seam-mirrored coordinate;
- the side quads, wrapping around each ring;
- two cap centres and copies of the bottom and top rings flattened onto the caps;
- two cap fans with opposite windings.

It also has four slider setters.

**RandomWallGenerator** builds a flat, noise-displaced grid. Before building it:
- optionally draws a new seed;
- seeds the random stream;
- takes the noise offset from the first two values of that stream.

It then appends the vertices, UVs and triangles of a `(widthSegments+1) × (heightSegments+1)` grid to lists. Its noise is the same octave sum, **not** normalised, times `depth`.

**Shared code.** Both components:
- clear their children and scatter prefabs over the mesh vertices, `RoundToInt(spawnRatio * maxToSpawn)` objects per live rule;
- can set one rule's spawn ratio, clamped to [0, 1], behind an index check.

## Layout

| file | module | contents |
|---|---|---|
| `wrappers.dfy` | `Wrappers` | `Option` |
| `geometry.dfy` | `Geometry` | `Vector2`/`Vector3`, the mesh buffers, `Mathf` (Perlin, cos, sin as parameters), `WellFormed` |
| `arith.dfy`, `grids.dfy` | `Arith`, `Grids` | index arithmetic and the row-major cell count |
| `noise.dfy` | `Noise` | the octave loop as a recursive sum, its weights, bounds and closed form |
| `spire_mesh.dfy` | `SpireMesh` | the spire mesh as values, and what is proved about it |
| `climbing_spire.dfy` | `Spire` | class `ClimbingSpire`; the array-filling methods, one per source loop |
| `wall_mesh.dfy` | `WallMesh` | the wall mesh as values, and what is proved about it |
| `random_wall_generator.dfy` | `Wall` | class `RandomWallGenerator`; the list-building loops |
| `prefab_scatter.dfy` | `PrefabScatter` | spawn rules, spawn counts, placements, the scatter loops, the rule update |

Each imperative method is proved against a specification function over values: `SpireVertices`, `SpireUVs`, `SpireTriangles` and `SpireMeshOf`; `WallVertices`, `Tiles` and `WallMeshOf`; `Layered` and `Weight`; `Scatter`, `Scattered` and `WithSpawnRatio`. The lemmas then state the properties of those functions.

## Model

In the source column, `ClimbingSpire.cs` and `RandomWallGenerator.cs` live under `Assets/Scripts/`.

| member | source | states |
|---|---|---|
| Spire.ClimbingSpire.constructor | Assets/Scripts/ClimbingSpire.cs:8-31 | the inspector defaults: radius 1, height 2, 24 × 8 segments, amplitude 0.2, scale 1, 4 octaves, persistence 0.5, lacunarity 2; no rules, no mesh, no children |
| Spire.ClimbingSpire.GenerateSpire | Assets/Scripts/ClimbingSpire.cs:42-171 | the shared mesh becomes `SpireMeshOf(config, mathf)` for the current inspector settings; nothing else changes |
| Spire.SpireVertexBuffers | Assets/Scripts/ClimbingSpire.cs:47-141 | the zero-initialised vertex and UV arrays of `totalVertCount` entries, once filled, are exactly `SpireVertices` and `SpireUVs` |
| Spire.SpireTriangleBuffer | Assets/Scripts/ClimbingSpire.cs:101-161 | the triangle array, once filled, is exactly `SpireTriangles` |
| Spire.LayeredNoise | Assets/Scripts/ClimbingSpire.cs:76-89 | the octave loop leaves `totalNoise` = the layered sum starting at frequency `noiseScale`, and `maxAmplitude` = the sum of the amplitudes |
| Spire.RingVertex | Assets/Scripts/ClimbingSpire.cs:67-96 | one inner-loop body computes exactly side vertex (y, i) and its UV |
| Spire.FillRing | Assets/Scripts/ClimbingSpire.cs:65-98 | the inner side loop appends ring y after the cursor; the cursor advances by `radialSegments`; UVs past it are untouched |
| Spire.FillSide | Assets/Scripts/ClimbingSpire.cs:60-99 | the side loops end with the cursor at `sideVertCount`; the prefix is the row-major side vertices and their UVs; the rest of the UV array is untouched |
| Spire.WriteQuad | Assets/Scripts/ClimbingSpire.cs:106-117 | the six writes of one quad append (current, currentAbove, next, next, currentAbove, nextAbove) |
| Spire.FillQuadRow | Assets/Scripts/ClimbingSpire.cs:104-118 | one ring of quads appends 6·radialSegments entries |
| Spire.FillQuads | Assets/Scripts/ClimbingSpire.cs:102-119 | the side-triangle loops end with `triIndex` = R·H·6 and the prefix equal to `Quads(R, H)` |
| Spire.FillRim | Assets/Scripts/ClimbingSpire.cs:128-141 | a rim loop appends copies of n earlier vertices with y replaced by the rim level |
| Spire.FillCaps | Assets/Scripts/ClimbingSpire.cs:121-141 | the centres and both rims fill the array exactly to its end, with the capped layout over the side prefix |
| Spire.FillBottomFan | Assets/Scripts/ClimbingSpire.cs:144-151 | the bottom fan appends (rim i, rim next, centre) for every i |
| Spire.FillTopFan | Assets/Scripts/ClimbingSpire.cs:154-161 | the top fan appends (rim next, rim i, centre) for every i |
| Spire.FillFans | Assets/Scripts/ClimbingSpire.cs:143-161 | after the quads, the two fans fill the triangle array exactly to its end |
| Spire.ClimbingSpire.SetDepth | Assets/Scripts/ClimbingSpire.cs:172-175 | `noiseAmplitude` becomes value × 10; only that field changes |
| Spire.ClimbingSpire.SetNoiseScale | Assets/Scripts/ClimbingSpire.cs:177-180 | `noiseScale` becomes value × 100; only that field changes |
| Spire.ClimbingSpire.SetPersistence | Assets/Scripts/ClimbingSpire.cs:181-184 | `persistence` becomes value / 2; only that field changes |
| Spire.ClimbingSpire.SetLacunarity | Assets/Scripts/ClimbingSpire.cs:185-188 | `lacunarity` becomes value × 10; only that field changes |
| Spire.ClimbingSpire.GeneratePrefabs | Assets/Scripts/ClimbingSpire.cs:190-220 | clears the children. Then: no rules gives no fault; with rules but no mesh, a NullReferenceException; otherwise `Scattered`, meaning exactly the scatter of the rules over the mesh vertices, or an IndexOutOfRangeException with no children when an object must go onto an empty mesh |
| Spire.ClimbingSpire.SetPrefabNumber | Assets/Scripts/ClimbingSpire.cs:221-232 | warns exactly when the index is out of range; the rules become `WithSpawnRatio` of the old rules |
| Spire.ClimbingSpire.SetPrefabNumberZero | Assets/Scripts/ClimbingSpire.cs:233-236 | warns exactly when there is no rule 0; otherwise sets rule 0's ratio |
| Spire.ClimbingSpire.SetPrefabNumberOne | Assets/Scripts/ClimbingSpire.cs:237-240 | the same for rule 1 |
| Spire.ClimbingSpire.SetPrefabNumberTwo | Assets/Scripts/ClimbingSpire.cs:241-244 | the same for rule 2 |
| Spire.ClimbingSpire.SetPrefabNumberThree | Assets/Scripts/ClimbingSpire.cs:245-248 | the same for rule 3 |
| Spire.ClimbingSpire.SetPrefabNumberFour | Assets/Scripts/ClimbingSpire.cs:249-252 | the same for rule 4 |
| Spire.ClimbingSpire.DestroyAllChildren | Assets/Scripts/ClimbingSpire.cs:253-263 | the downward loop leaves no children |
| SpireMesh.NormalizedNoise | Assets/Scripts/ClimbingSpire.cs:91 | `totalNoise / maxAmplitude`: the octave sum from frequency `noiseScale` and amplitude 1, divided by the summed amplitudes; bounded by `NormalizedNoiseBetween` |
| SpireMesh.DisplacedRadius | Assets/Scripts/ClimbingSpire.cs:92 | `radius + normalizedNoise * noiseAmplitude`; bounded by `DisplacedRadiusBetween` |
| SpireMesh.SideVertex | Assets/Scripts/ClimbingSpire.cs:62-94 | side vertex i of ring y: direction (cos, sin) of the angle u·2π, distance `DisplacedRadius` at the mirrored coordinate, height (y/H)·height; placed by `SideVertexAt`, on a circle by `PerfectCylinder` |
| SpireMesh.SideUV | Assets/Scripts/ClimbingSpire.cs:96 | the UV (i/R, y/H) of side vertex i of ring y |
| SpireMesh.Ring | Assets/Scripts/ClimbingSpire.cs:65-98 | the first k vertices of ring y, k of them; entry i is given by `RingAt` |
| SpireMesh.Rim | Assets/Scripts/ClimbingSpire.cs:128-141 | a rim of k vertices copied from `start` on with y replaced by the level; entry i is given by `RimAt` |
| SpireMesh.Capped | Assets/Scripts/ClimbingSpire.cs:121-141 | the side followed by the two centres and the two rims, in the order of the writes; read back by `CapVerticesAt` |
| SpireMesh.SpireVertices | Assets/Scripts/ClimbingSpire.cs:47-141 | every vertex GenerateSpire writes, in write order; laid out by `SideVertexAt` and `CapVerticesAt`, counted by `SpireCounts` |
| SpireMesh.SpireUVs | Assets/Scripts/ClimbingSpire.cs:53-96 | the side UVs followed by zero UVs for the caps; laid out by `SideUVOf` and `CapVerticesAt` |
| SpireMesh.Next | Assets/Scripts/ClimbingSpire.cs:107 | `(i + 1) % R`; `NextWraps` shows it is the following segment, wrapping to 0 |
| SpireMesh.Quad | Assets/Scripts/ClimbingSpire.cs:106-117 | the six entries (current, currentAbove, next, next, currentAbove, nextAbove) of quad (y, i); in range by `QuadInRange` |
| SpireMesh.QuadRow | Assets/Scripts/ClimbingSpire.cs:104-118 | the first k quads of ring y, 6k entries; entry 6i + t by `QuadRowAt` |
| SpireMesh.Quads | Assets/Scripts/ClimbingSpire.cs:102-119 | the quads of the first `rows` rings, 6·R·rows entries; entry (y·R + i)·6 + t by `QuadsAt` |
| SpireMesh.BottomFan | Assets/Scripts/ClimbingSpire.cs:144-151 | the first k bottom-cap triangles, 3k entries; triangle i by `BottomFanAt` |
| SpireMesh.TopFan | Assets/Scripts/ClimbingSpire.cs:154-161 | the first k top-cap triangles, 3k entries; triangle i by `TopFanAt` |
| SpireMesh.SpireTriangles | Assets/Scripts/ClimbingSpire.cs:101-161 | every triangle entry GenerateSpire writes: quads, bottom fan, top fan; in range by `SpireTrianglesInRange`, windings by `CapWindings` |
| SpireMesh.SpireMeshOf | Assets/Scripts/ClimbingSpire.cs:163-170 | the mesh handed to the MeshFilter and MeshCollider; well formed by `SpireWellFormed` |
| SpireMesh.SpireCounts | Assets/Scripts/ClimbingSpire.cs:47-54 | vertices and UVs number R(H+1) + 2 + 2R; triangle entries number 6RH + 6R |
| SpireMesh.VertexCountSplit | Assets/Scripts/ClimbingSpire.cs:47-50 | `sideVertCount` = R·H + R and `totalVertCount` = side + 2 centres + 2R rim vertices |
| SpireMesh.SideVertices | Assets/Scripts/ClimbingSpire.cs:60-99 | the side loops produce exactly `sideVertCount` vertices |
| SpireMesh.SideVertexAt | Assets/Scripts/ClimbingSpire.cs:60-97 | side vertex (y, i) is stored at y·R + i and has height (y / H)·height |
| SpireMesh.SideUVOf | Assets/Scripts/ClimbingSpire.cs:62-96 | the UV at y·R + i is (i / R, y / H) |
| SpireMesh.SideAt | Assets/Scripts/ClimbingSpire.cs:60-99 | row-major layout: entry y·R + i of the first rows is side vertex (y, i) |
| SpireMesh.RingAt | Assets/Scripts/ClimbingSpire.cs:65-98 | entry i of a ring is side vertex i |
| SpireMesh.RingUVAt | Assets/Scripts/ClimbingSpire.cs:65-96 | entry i of a ring's UVs is the UV of side vertex i |
| SpireMesh.SideUVAt | Assets/Scripts/ClimbingSpire.cs:60-99 | entry y·R + i of the first rows' UVs is the UV of side vertex (y, i) |
| SpireMesh.UVsWithZeroCaps | Assets/Scripts/ClimbingSpire.cs:53-141 | a UV array of `totalVertCount` entries holding the side UVs followed by zeroes is `SpireUVs`: the cap UVs keep their default (0, 0) |
| SpireMesh.SpireVerticesOfSide | Assets/Scripts/ClimbingSpire.cs:121-141 | the full vertex buffer is the side prefix followed by the centres and rims read back from that prefix |
| SpireMesh.CapVerticesAt | Assets/Scripts/ClimbingSpire.cs:121-141 | bottom centre (0,0,0); top centre (0,height,0); bottom rim i = side vertex i with y = 0; top rim i = side vertex H·R + i with y = height; cap UVs are zero |
| SpireMesh.RimAt | Assets/Scripts/ClimbingSpire.cs:129-141 | rim entry i copies x and z of source vertex start + i, with y replaced by the level |
| SpireMesh.MirroredU | Assets/Scripts/ClimbingSpire.cs:67-69 | the seam-mirrored coordinate lies in [0, 0.5] and is 0 at i = 0 and at i = R − 1 |
| SpireMesh.MirroredSymmetric | Assets/Scripts/ClimbingSpire.cs:67-69 | away from the wrapped seam, segments i and R − i read the same noise coordinate |
| SpireMesh.SeamRadius | Assets/Scripts/ClimbingSpire.cs:67-92 | the displaced radius at index 0 equals that at index R − 1; for R ≥ 3, segment 1 and segment R − 1 are not mirrored onto each other |
| SpireMesh.NextWraps | Assets/Scripts/ClimbingSpire.cs:107 | `(i + 1) % R` is i + 1, or 0 at the last segment, and always a segment index |
| SpireMesh.QuadRowAt | Assets/Scripts/ClimbingSpire.cs:104-118 | entry 6i + t of a quad ring is entry t of quad i |
| SpireMesh.QuadsAt | Assets/Scripts/ClimbingSpire.cs:102-119 | entry (y·R + i)·6 + t of the side triangles is entry t of quad (y, i) |
| SpireMesh.QuadInRange | Assets/Scripts/ClimbingSpire.cs:106-117 | each quad of ring y uses only vertices of rings y and y + 1 |
| SpireMesh.QuadRowInRange | Assets/Scripts/ClimbingSpire.cs:104-118 | every entry of a ring of quads names a vertex of ring y or y + 1 |
| SpireMesh.QuadsLength | Assets/Scripts/ClimbingSpire.cs:102-119 | after `rows` rings the triangle cursor stands at 6·R·rows |
| SpireMesh.QuadsInRange | Assets/Scripts/ClimbingSpire.cs:102-119 | every side-triangle index is below (H + 1)·R |
| SpireMesh.BottomFanAt | Assets/Scripts/ClimbingSpire.cs:144-151 | bottom-fan triangle i is (rim i, rim next, centre) |
| SpireMesh.TopFanAt | Assets/Scripts/ClimbingSpire.cs:154-161 | top-fan triangle i is (rim next, rim i, centre) |
| SpireMesh.FansInRange | Assets/Scripts/ClimbingSpire.cs:143-161 | every fan entry is the centre or a vertex of its own rim |
| SpireMesh.CapWindings | Assets/Scripts/ClimbingSpire.cs:143-161 | in the full triangle buffer, bottom triangle i is (bottomRim+i, bottomRim+next, bottomCentre) and top triangle i the reverse winding (topRim+next, topRim+i, topCentre) |
| SpireMesh.SpireTrianglesInRange | Assets/Scripts/ClimbingSpire.cs:102-161 | side-triangle entries are below `sideVertCount`; every entry is below `totalVertCount` |
| SpireMesh.SpireWellFormed | Assets/Scripts/ClimbingSpire.cs:47-165 | the uploaded mesh has one UV per vertex, whole triangles and only valid vertex indices |
| SpireMesh.MaxAmplitudeAtLeastOne | Assets/Scripts/ClimbingSpire.cs:79-87 | with at least one octave and persistence ≥ 0, `maxAmplitude` ≥ 1, so the division is defined |
| SpireMesh.InspectorRangesBuildable | Assets/Scripts/ClimbingSpire.cs:11-19 | every setting inside the inspector ranges builds a mesh (no negative size, no division by zero) |
| SpireMesh.SettersKeepBuildable | Assets/Scripts/ClimbingSpire.cs:172-188 | starting in range, the depth, scale and lacunarity setters keep the spire buildable for any value, and the persistence setter for any value ≥ 0 |
| SpireMesh.NormalizedNoiseBetween | Assets/Scripts/ClimbingSpire.cs:76-91 | `normalizedNoise` is a weighted average: it lies between any bounds of the octave samples |
| SpireMesh.DisplacedRadiusBetween | Assets/Scripts/ClimbingSpire.cs:91-92 | with Perlin values in [lo, hi], the radius lies in [radius + lo·amplitude, radius + hi·amplitude] |
| SpireMesh.PerfectCylinder | Assets/Scripts/ClimbingSpire.cs:71-94 | with zero noise amplitude, every side vertex lies on the circle of radius `radius` |
| Noise.WeightAtLeastFirst | Assets/Scripts/ClimbingSpire.cs:79-87 | the summed amplitudes are non-negative and at least the first amplitude |
| Noise.Layered | Assets/Scripts/ClimbingSpire.cs:76-89 | the octave loop as a recursive sum: sample × amplitude, then the rest at amplitude × persistence and frequency × lacunarity; in closed form by `LayeredIsPowerSum`, bounded by `LayeredBetween` |
| Noise.Weight | Assets/Scripts/ClimbingSpire.cs:79-87 | `maxAmplitude`, the sum of the octaves' amplitudes; bounded below by `WeightAtLeastFirst` |
| Noise.LayeredAbove | Assets/Scripts/ClimbingSpire.cs:81-89 | a lower bound lo on every sample gives lo × the summed amplitudes ≤ the sum |
| Noise.LayeredBelow | Assets/Scripts/ClimbingSpire.cs:81-89 | an upper bound hi on every sample gives the sum ≤ hi × the summed amplitudes |
| Noise.BoundedPerlinSamples | Assets/Scripts/ClimbingSpire.cs:83 | a Perlin function bounded everywhere bounds every octave's sample |
| Noise.LayeredBetween | Assets/Scripts/ClimbingSpire.cs:81-89 | the octave sum lies between lo and hi times the summed amplitudes |
| Noise.NormalizedBetween | Assets/Scripts/ClimbingSpire.cs:81-91 | the sum divided by the summed amplitudes lies in [lo, hi] |
| Noise.LayeredOfConstant | Assets/Scripts/ClimbingSpire.cs:81-89 | constant samples c sum to c times the summed amplitudes |
| Noise.OctaveStep | Assets/Scripts/RandomWallGenerator.cs:120-129 | one turn of an octave loop takes the current sample out of the sum and moves on with amplitude × persistence and frequency × lacunarity |
| Noise.OctavePowers | Assets/Scripts/RandomWallGenerator.cs:127-128 | octave o runs at frequency × lacunarity^o and amplitude × persistence^o |
| Noise.OctaveShift | Assets/Scripts/RandomWallGenerator.cs:127-128 | damping and sharpening once, then o times, is octave o + 1 |
| Noise.PowerSumShift | Assets/Scripts/RandomWallGenerator.cs:120-129 | the series started one octave later is the series without its first term |
| Noise.LayeredIsPowerSum | Assets/Scripts/RandomWallGenerator.cs:116-131 | the octave loop equals the series of its octaves taken one by one |
| PrefabScatter.Clamp01 | Assets/Scripts/ClimbingSpire.cs:230 | the result is in [0, 1] and equals the input when the input is in [0, 1] |
| PrefabScatter.Clamp01Nearest | Assets/Scripts/ClimbingSpire.cs:230 | the clamp is the nearest point of [0, 1] |
| PrefabScatter.RoundToInt | Assets/Scripts/ClimbingSpire.cs:206 | rounds to the nearest integer, with ties to even |
| PrefabScatter.SpawnCount | Assets/Scripts/ClimbingSpire.cs:203-207 | rules without a prefab or with maxToSpawn ≤ 0 spawn nothing; live rules spawn `RoundToInt(ratio × max)` objects (none if that is negative), at most max for a ratio in [0, 1], and none for ratio 0 |
| PrefabScatter.SpawnCountOfLiveRule | Assets/Scripts/ClimbingSpire.cs:203-207 | for a live rule, the loop count is RoundToInt(ratio × max) when that is non-negative, else 0 |
| PrefabScatter.SpawnTarget | Assets/Scripts/ClimbingSpire.cs:206 | `spawnRatio * maxToSpawn`, the value the count is rounded from; at most maxToSpawn for a ratio in [0, 1] (`FractionOfMax`) |
| PrefabScatter.RangeDraw | Assets/Scripts/ClimbingSpire.cs:209 | the result of `Random.Range(0, n)`: an index in [0, n), or 0 for an empty range |
| PrefabScatter.Pose | Assets/Scripts/ClimbingSpire.cs:210-217 | the object placed on vertex `index`: the world point pushed `normalOffset` along the normal, turned so its up axis follows the normal |
| PrefabScatter.Placements | Assets/Scripts/ClimbingSpire.cs:201-219 | what the first k rules place, Spawned(k) objects; extended one rule at a time by `PlacementsStep`, described by `PlacementsOnSurface` |
| PrefabScatter.Scattered | Assets/Scripts/ClimbingSpire.cs:192-219 | the outcome of GeneratePrefabs once it has read the vertices: no rules, nothing; an object for an empty mesh, an IndexOutOfRangeException and nothing; otherwise exactly `Scatter` |
| PrefabScatter.ScatteredDetermined | Assets/Scripts/ClimbingSpire.cs:192-219 | the same rules, mesh and draws allow exactly one outcome |
| PrefabScatter.RulePlacements | Assets/Scripts/ClimbingSpire.cs:207-218 | one rule places exactly `count` objects |
| PrefabScatter.Scatter | Assets/Scripts/ClimbingSpire.cs:201-219 | the whole scatter places exactly the sum of the rules' spawn counts |
| PrefabScatter.RulePlacementsAt | Assets/Scripts/ClimbingSpire.cs:209-217 | object j of a rule sits at the pose of draw j: world vertex + normal × offset, up along the normal |
| PrefabScatter.ScatterOfRule | Assets/Scripts/ClimbingSpire.cs:201-219 | rule k's objects form one contiguous block of the scatter, after those of earlier rules |
| PrefabScatter.PlacementsPrefix | Assets/Scripts/ClimbingSpire.cs:201-219 | placing more rules only appends: earlier objects are unchanged |
| PrefabScatter.SpawnedMono | Assets/Scripts/ClimbingSpire.cs:201-207 | the running spawn count never decreases from rule to rule |
| PrefabScatter.PlacementsStep | Assets/Scripts/ClimbingSpire.cs:201-219 | the placements of k + 1 rules are those of k rules followed by rule k's, and a rule that spawns nothing adds nothing |
| PrefabScatter.PlacementsOnSurface | Assets/Scripts/ClimbingSpire.cs:209-217 | every object sits on a valid vertex, at the world point pushed along that vertex normal by a live rule's offset, and carries that rule's prefab |
| PrefabScatter.PlaceRule | Assets/Scripts/ClimbingSpire.cs:207-218 | the inner loop faults exactly when it must draw from an empty vertex array; otherwise it uses valid draws and places `RulePlacements` |
| PrefabScatter.PlaceNext | Assets/Scripts/ClimbingSpire.cs:201-218 | one turn of the rule loop skips dead rules and extends the placements by rule k |
| PrefabScatter.PlaceAll | Assets/Scripts/ClimbingSpire.cs:201-219 | the rule loop faults exactly when an object must go on an empty mesh; otherwise it places exactly `Scatter` |
| PrefabScatter.WithSpawnRatio | Assets/Scripts/ClimbingSpire.cs:221-232 | out-of-range index: no change; otherwise only that rule's spawn ratio changes, to the clamped input; length and all other fields are kept |
| PrefabScatter.RatiosStayInUnit | Assets/Scripts/ClimbingSpire.cs:221-232 | if every ratio is in [0, 1] before the update, every ratio is in [0, 1] after it |
| Wall.RandomWallGenerator.constructor | Assets/Scripts/RandomWallGenerator.cs:8-43 | the inspector defaults: 10 × 10 × 1, 10 × 10 segments, centred in x and y, scale 5, 4 octaves, persistence 0.5, lacunarity 2, seed 0 with random seeding |
| Wall.RandomWallGenerator.GenerateWallMesh | Assets/Scripts/RandomWallGenerator.cs:54-112 | the seed is the drawn seed when `useRandomSeed`, else unchanged; the offset is 1000 × the first two values of the seeded stream; the shared mesh becomes `WallMeshOf(config, offset, perlin)`; the prefabs are scattered over it with the next draws of the same stream (`SeededDraws`), so by `ScatteredDetermined` a fixed seed fixes the wall and the prefab layout |
| Wall.SeedDraw | Assets/Scripts/RandomWallGenerator.cs:57 | `Random.Range(int.MinValue, int.MaxValue)`: a 32-bit integer, the maximum excluded |
| Wall.SeededDraws | Assets/Scripts/RandomWallGenerator.cs:59-111 | the scatter's j-th `Random.Range(0, n)` is call 2 + j on the stream seeded with `seed`, after the two `Random.value` calls of the offset |
| Wall.RandomWallGenerator.Reseed | Assets/Scripts/RandomWallGenerator.cs:56-60 | the seed rule and the offset drawn from the seed |
| Wall.RandomWallGenerator.Rebuild | Assets/Scripts/RandomWallGenerator.cs:62-111 | builds and installs the mesh, then scatters over its vertices |
| Wall.RandomWallGenerator.BuildWall | Assets/Scripts/RandomWallGenerator.cs:62-105 | the three lists assemble exactly into `WallMeshOf(config, offset, perlin)` |
| Wall.RandomWallGenerator.AddLine | Assets/Scripts/RandomWallGenerator.cs:75-84 | the inner vertex loop appends line y of the grid and its UVs |
| Wall.RandomWallGenerator.AddLines | Assets/Scripts/RandomWallGenerator.cs:73-85 | the vertex loops produce exactly `WallVertices` and `WallUVs` |
| Wall.AddTileRow | Assets/Scripts/RandomWallGenerator.cs:89-100 | the inner triangle loop appends the two triangles of every cell of line y |
| Wall.AddTiles | Assets/Scripts/RandomWallGenerator.cs:87-101 | the triangle loops produce exactly `Tiles` |
| Wall.NoiseHeight | Assets/Scripts/RandomWallGenerator.cs:116-129 | the octave loop sums the samples at ((x + offset.x)/scale, (y + offset.y)/scale), starting at frequency 1 and amplitude 1 |
| Wall.RandomWallGenerator.GenerateNoise | Assets/Scripts/RandomWallGenerator.cs:114-132 | returns `WallNoise`: the octave sum times depth, not normalised |
| Wall.RandomWallGenerator.GeneratePrefabs | Assets/Scripts/RandomWallGenerator.cs:134-164 | the same as ClimbingSpire.GeneratePrefabs |
| Wall.RandomWallGenerator.SetPrefabNumber | Assets/Scripts/RandomWallGenerator.cs:165-176 | warns exactly when the index is out of range; the rules become `WithSpawnRatio` of the old rules |
| Wall.RandomWallGenerator.SetPrefabNumberZero | Assets/Scripts/RandomWallGenerator.cs:177-180 | warns exactly when there is no rule 0; otherwise sets rule 0's ratio |
| Wall.RandomWallGenerator.SetPrefabNumberOne | Assets/Scripts/RandomWallGenerator.cs:181-184 | the same for rule 1 |
| Wall.RandomWallGenerator.SetPrefabNumberTwo | Assets/Scripts/RandomWallGenerator.cs:185-188 | the same for rule 2 |
| Wall.RandomWallGenerator.SetPrefabNumberThree | Assets/Scripts/RandomWallGenerator.cs:189-192 | the same for rule 3 |
| Wall.RandomWallGenerator.SetPrefabNumberFour | Assets/Scripts/RandomWallGenerator.cs:193-196 | the same for rule 4 |
| Wall.RandomWallGenerator.DestroyAllChildren | Assets/Scripts/RandomWallGenerator.cs:198-208 | the downward loop leaves no children |
| WallMesh.WallVertices | Assets/Scripts/RandomWallGenerator.cs:73-85 | the vertex list has Columns × Lines entries |
| WallMesh.WallUVs | Assets/Scripts/RandomWallGenerator.cs:73-85 | the UV list has as many entries as the vertex list |
| WallMesh.WallNoise | Assets/Scripts/RandomWallGenerator.cs:114-132 | GenerateNoise(x, y): the octave sum at ((x + offset.x)/scale, (y + offset.y)/scale) from frequency 1 and amplitude 1, times depth; stated by `WallNoiseIsPowerSum` and `WallNoiseBetween` |
| WallMesh.PosX | Assets/Scripts/RandomWallGenerator.cs:67-77 | `x * dx + offsetX`; its end points by `WallSpan` |
| WallMesh.PosY | Assets/Scripts/RandomWallGenerator.cs:68-78 | `y * dy + offsetY`; its end points by `WallSpan` |
| WallMesh.PosZ | Assets/Scripts/RandomWallGenerator.cs:79-80 | the noise, lowered by depth/2 when `centerZ`; flat by `FlatWithoutOctaves` |
| WallMesh.GridVertex | Assets/Scripts/RandomWallGenerator.cs:77-82 | grid point (x, y) at (PosX, PosY, PosZ(noise)); placed by `WallVertexAt` |
| WallMesh.GridUV | Assets/Scripts/RandomWallGenerator.cs:83 | the UV (x/W, y/H) of grid point (x, y) |
| WallMesh.Line | Assets/Scripts/RandomWallGenerator.cs:75-84 | the first k points of line y, k of them; entry x by `LineAt` |
| WallMesh.Grid | Assets/Scripts/RandomWallGenerator.cs:73-85 | the points of the first `rows` lines, row-major; entry y·Columns + x by `GridAt` |
| WallMesh.Tile | Assets/Scripts/RandomWallGenerator.cs:91-99 | the six entries (i, i+W+1, i+1, i+1, i+W+1, i+W+2) of cell (x, y); in range by `TileInRange` |
| WallMesh.TileRow | Assets/Scripts/RandomWallGenerator.cs:89-100 | the first k cells of line y, 6k entries; entry 6x + t by `TileRowAt` |
| WallMesh.Tiles | Assets/Scripts/RandomWallGenerator.cs:87-101 | the cells of the first `rows` lines, 6·W·rows entries; entry (y·W + x)·6 + t by `TilesAt` |
| WallMesh.WallTriangles | Assets/Scripts/RandomWallGenerator.cs:87-101 | every triangle entry GenerateWallMesh adds; in range by `WallTrianglesInRange`, tight by `LastTileIsLastVertex` |
| WallMesh.WallMeshOf | Assets/Scripts/RandomWallGenerator.cs:103-109 | the mesh handed to the MeshFilter and MeshCollider; well formed by `WallWellFormed` |
| WallMesh.WallCounts | Assets/Scripts/RandomWallGenerator.cs:73-101 | for positive segment counts: (W+1)(H+1) vertices and UVs, and 6·W·H triangle entries |
| WallMesh.GridAt | Assets/Scripts/RandomWallGenerator.cs:73-85 | row-major layout: entry y·Columns + x of the first lines is grid vertex (x, y) |
| WallMesh.GridUVAt | Assets/Scripts/RandomWallGenerator.cs:73-85 | entry y·Columns + x of the first lines' UVs is the UV of grid point (x, y) |
| WallMesh.LineAt | Assets/Scripts/RandomWallGenerator.cs:75-84 | entry x of line y is grid point (x, y) |
| WallMesh.WallVertexAt | Assets/Scripts/RandomWallGenerator.cs:73-85 | vertex (x, y) is at index y(W+1) + x with position (posX, posY, posZ(noise)) and UV (x/W, y/H) |
| WallMesh.WallSpan | Assets/Scripts/RandomWallGenerator.cs:67-78 | the grid spans [offsetX, offsetX + width] × [offsetY, offsetY + height], and is centred on the flagged axes |
| WallMesh.TileRowAt | Assets/Scripts/RandomWallGenerator.cs:89-100 | entry 6x + t of a line of cells is entry t of cell x |
| WallMesh.TilesAt | Assets/Scripts/RandomWallGenerator.cs:87-101 | entry (y·W + x)·6 + t of the triangles is entry t of cell (x, y) |
| WallMesh.TileInRange | Assets/Scripts/RandomWallGenerator.cs:91-99 | a cell uses indices from i up to i + W + 2, its last entry being the vertex diagonally above |
| WallMesh.TileRowInRange | Assets/Scripts/RandomWallGenerator.cs:89-100 | every entry of line y's cells names a point of line y or y + 1 |
| WallMesh.TilesLength | Assets/Scripts/RandomWallGenerator.cs:87-101 | after `rows` lines the triangle count is 6·W·rows |
| WallMesh.TilesInRange | Assets/Scripts/RandomWallGenerator.cs:87-101 | every triangle entry is below (H + 1)(W + 1) |
| WallMesh.WallTrianglesInRange | Assets/Scripts/RandomWallGenerator.cs:87-101 | every triangle entry names a vertex of the list |
| WallMesh.LastTileIsLastVertex | Assets/Scripts/RandomWallGenerator.cs:91-99 | the last triangle entry, i + W + 2 of the last cell, is exactly the last vertex |
| WallMesh.WallWellFormed | Assets/Scripts/RandomWallGenerator.cs:73-105 | the uploaded mesh has one UV per vertex, whole triangles and only valid vertex indices |
| WallMesh.FlatWithoutOctaves | Assets/Scripts/RandomWallGenerator.cs:114-132 | with octaves ≤ 0 the noise is 0, and z is −depth/2 when centred, else 0 |
| WallMesh.WallNoiseIsPowerSum | Assets/Scripts/RandomWallGenerator.cs:114-132 | the noise is depth × the sum over o of perlin(sample × lacunarity^o) × persistence^o, with no normalisation |
| WallMesh.WallNoiseBetween | Assets/Scripts/RandomWallGenerator.cs:114-132 | with Perlin values in [lo, hi], the noise lies between lo·W·depth and hi·W·depth, where W = 1 + persistence + … |
| WallMesh.WallDeeperThanDepth | Assets/Scripts/RandomWallGenerator.cs:114-132 | with the default 4 octaves and persistence 0.5, a constant Perlin value of 1 gives 1.875 × depth: the unnormalised noise exceeds depth |

## Left out

- Floating point is modelled as exact reals:
  - no single-precision rounding;
  - `Mathf.PI` is a real constant;
  - divisions by zero, which the engine would turn into infinities or NaN, are excluded by the `Buildable` preconditions:
    - the spire needs `radialSegments >= 0`, `heightSegments >= 1` and a non-zero total amplitude;
    - the wall needs non-zero segment counts and a non-zero `noiseScale`.
- The spire's `Buildable` precondition also excludes negative array sizes, where C# would throw. The source protects these settings only by the inspector ranges; `SpireMesh.InspectorRangesBuildable` shows the ranges suffice.
- `Mathf.PerlinNoise`, `Mathf.Cos` and `Mathf.Sin` are parameters about which nothing is assumed. Range facts take Perlin bounds as hypotheses.
- The engine calls are not modelled:
  - `Mesh.RecalculateNormals` and `RecalculateBounds`: the normals come in as a parameter of the scatter, one per vertex;
  - `transform.TransformPoint`: a function parameter;
  - `Quaternion.FromToRotation(Vector3.up, normal)`: kept as the normal it turns `up` onto;
  - `Instantiate`: recorded as an `Attachment` appended to `children`.
- The global `UnityEngine.Random` state is replaced by parameters:
  - `Random.Range(0, n)` in GeneratePrefabs called on its own: a sequence of draws obeying its range contract, with 0 for an empty range;
  - `Random.Range(0, n)` in the scatter of GenerateWallMesh: a function `ranges(seed, k, n)` of the seeded stream, obeying the same contract, so that the scatter continues the stream that gave the offset;
  - `Random.Range(int.MinValue, int.MaxValue)`: the `drawnSeed` parameter, maximum excluded;
  - `Random.InitState(seed)` followed by `Random.value`: a function `values(seed, k)`.
- SpireMesh.SpireWellFormed and WallMesh.WallWellFormed: they do not include the default 16-bit index format's limit of 65535 vertices. The wall's segment counts are unbounded, so a large wall meets `WellFormed` but is not accepted by the engine under the default index format.
- The two streams `values` and `ranges` are independent parameters. The model does not state that they are views of one generator state.
- Spire.ClimbingSpire.DestroyAllChildren: `Destroy` in play mode is deferred to the end of the frame, and `DestroyImmediate` is immediate. Both are modelled as immediate removal from `children`.
- Wall.RandomWallGenerator.DestroyAllChildren: the same as for the spire.
- `Debug.LogWarning` in `SetPrefabNumber` is the `warned` result.
- A `null` prefab list (the `prefabsToSpawn == null` test) is not modelled: a Dafny sequence is never null. An empty list behaves as in the source.
- A `null` shared mesh with a non-empty rule list is modelled as a `NullReferenceException` result, since `mesh.vertices` dereferences it.
- `Awake`, the `MeshFilter`/`MeshCollider` lookup and their two `sharedMesh` assignments are not modelled. One `sharedMesh` field stands for both, since they always receive the same mesh.
- The inspector editor script (`Assets/Editor/ClimbingSpireEditor.cs`) only calls the modelled operations and is not part of this model.
- The other scripts of the repository are not part of this model: the climb handhold, the rope and its tether, the door and the fall rotation handler.

## Where the code and its design description differ

- The design description says every fractal sample is normalised by its total amplitude into [0, 1].
  - ClimbingSpire does this (`SpireMesh.NormalizedNoiseBetween`).
  - RandomWallGenerator.GenerateNoise does not: its noise is the raw octave sum times depth. The model follows the code (`WallMesh.WallNoiseIsPowerSum`), and `WallMesh.WallDeeperThanDepth` shows the default settings exceed `depth`.
- The design description says degenerate configurations are rejected at the configuration boundary. In the code:
  - the spire has only the inspector `[Range]` attributes;
  - the wall has no such attributes at all.

  The model states these conditions as preconditions.
