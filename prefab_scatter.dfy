/**
 * The prefab scatter that both generators carry: spawn rules, the spawn count
 * of a rule, the placement of each spawned object on a sampled vertex, and the
 * index-checked update of one rule's spawn ratio.
 */
module PrefabScatter {
  import opened Wrappers
  import opened Geometry

  /** A GameObject reference of a rule; NoPrefab is a null reference. */
  datatype Prefab = NoPrefab | Prefab(id: nat)

  /** The PrefabSpawnData struct. */
  datatype PrefabSpawnData = PrefabSpawnData(prefab: Prefab, spawnRatio: real, maxToSpawn: int, normalOffset: real)

  /**
   * A child instantiated under the generator: its prefab, the vertex it was
   * placed on, its world position, and the direction its rotation turns
   * Vector3.up onto (Quaternion.FromToRotation(Vector3.up, normal)).
   */
  datatype Attachment = Attachment(prefab: Prefab, vertex: nat, position: Vec3, up: Vec3)

  /** The exceptions the scatter can raise. */
  datatype Fault = NullReferenceException | IndexOutOfRangeException

  function Abs(x: real): real {
    if x < 0.0 then -x else x
  }

  /** Mathf.Clamp01. */
  function Clamp01(x: real): (r: real)
    ensures 0.0 <= r <= 1.0
    ensures 0.0 <= x <= 1.0 ==> r == x
  {
    if x < 0.0 then 0.0 else if x > 1.0 then 1.0 else x
  }

  /** Clamp01 returns the point of [0, 1] nearest to its input. */
  lemma Clamp01Nearest(x: real, t: real)
    requires 0.0 <= t <= 1.0
    ensures Abs(x - Clamp01(x)) <= Abs(x - t)
  {
  }

  /** Mathf.RoundToInt: the nearest integer, ties going to the even one. */
  function RoundToInt(x: real): (r: int)
    ensures -0.5 <= x - r as real <= 0.5
    ensures (x - r as real == 0.5 || x - r as real == -0.5) ==> r % 2 == 0
  {
    var f := x.Floor;
    var d := x - f as real;
    if d < 0.5 then f
    else if d > 0.5 then f + 1
    else if f % 2 == 0 then f
    else f + 1
  }

  /** spawnRatio * maxToSpawn, the value the spawn count is rounded from. */
  function SpawnTarget(rule: PrefabSpawnData): real {
    rule.spawnRatio * rule.maxToSpawn as real
  }

  /**
   * How many objects one rule spawns: none for a rule without a prefab or
   * with maxToSpawn <= 0, otherwise RoundToInt(spawnRatio * maxToSpawn)
   * iterations of a `for (i = 0; i < toSpawn; i++)` loop.
   */
  function SpawnCount(rule: PrefabSpawnData): (n: nat)
    ensures rule.prefab.NoPrefab? || rule.maxToSpawn <= 0 ==> n == 0
    ensures rule.prefab.Prefab? && rule.maxToSpawn > 0 && n > 0 ==>
              n == RoundToInt(SpawnTarget(rule))
    ensures 0.0 <= rule.spawnRatio <= 1.0 && rule.maxToSpawn > 0 ==> n <= rule.maxToSpawn
    ensures rule.spawnRatio == 0.0 ==> n == 0
  {
    if rule.prefab.NoPrefab? || rule.maxToSpawn <= 0 then 0
    else
      FractionOfMax(rule);
      var toSpawn := RoundToInt(SpawnTarget(rule));
      if toSpawn < 0 then 0 else toSpawn
  }

  lemma FractionOfMax(rule: PrefabSpawnData)
    requires 0 < rule.maxToSpawn
    ensures 0.0 <= rule.spawnRatio <= 1.0 ==> SpawnTarget(rule) <= rule.maxToSpawn as real
  {
    var m := rule.maxToSpawn as real;
    if 0.0 <= rule.spawnRatio <= 1.0 {
      assert m - rule.spawnRatio * m == (1.0 - rule.spawnRatio) * m;
    }
  }

  lemma SpawnCountOfLiveRule(rule: PrefabSpawnData)
    requires rule.prefab.Prefab? && rule.maxToSpawn > 0
    ensures RoundToInt(SpawnTarget(rule)) < 0 ==> SpawnCount(rule) == 0
    ensures RoundToInt(SpawnTarget(rule)) >= 0 ==> SpawnCount(rule) == RoundToInt(SpawnTarget(rule))
  {
  }

  /** The number of objects the first k rules spawn. */
  function Spawned(rules: seq<PrefabSpawnData>, k: nat): nat
    requires k <= |rules|
  {
    if k == 0 then 0 else Spawned(rules, k - 1) + SpawnCount(rules[k - 1])
  }

  /** The number of objects the whole rule list spawns. */
  function TotalSpawn(rules: seq<PrefabSpawnData>): nat {
    Spawned(rules, |rules|)
  }

  /**
   * The contract of Random.Range(0, n) on a vertex count n: an index in
   * [0, n), or 0 when the range is empty.
   */
  predicate RangeDraw(d: int, n: nat) {
    if n > 0 then 0 <= d < n else d == 0
  }

  /** The draws from..to-1 exist and each names one of n vertices. */
  predicate DrawsIn(draws: seq<int>, from: nat, to: nat, n: nat) {
    from <= to <= |draws| && forall j :: from <= j < to ==> 0 <= draws[j] < n
  }

  /**
   * The object a rule instantiates on vertex `index`: at the vertex moved to
   * world space and pushed `normalOffset` along the vertex normal, turned so
   * that its up axis follows that normal.
   */
  function Pose(rule: PrefabSpawnData, vertices: seq<Vec3>, normals: seq<Vec3>, toWorld: Vec3 -> Vec3, index: int): Attachment
    requires 0 <= index < |vertices| == |normals|
  {
    Attachment(rule.prefab, index, Add(toWorld(vertices[index]), Scale(normals[index], rule.normalOffset)), normals[index])
  }

  /** The objects one rule instantiates for the draws from..from+count-1, one per draw. */
  function RulePlacements(rule: PrefabSpawnData, vertices: seq<Vec3>, normals: seq<Vec3>, toWorld: Vec3 -> Vec3,
                          draws: seq<int>, from: nat, count: nat): (r: seq<Attachment>)
    requires |normals| == |vertices| && DrawsIn(draws, from, from + count, |vertices|)
    ensures |r| == count
  {
    if count == 0 then []
    else RulePlacements(rule, vertices, normals, toWorld, draws, from, count - 1)
         + [Pose(rule, vertices, normals, toWorld, draws[from + count - 1])]
  }

  /**
   * What the scatter loop instantiates for the first k rules: rule after
   * rule, each taking the next SpawnCount(rule) draws.
   */
  function Placements(rules: seq<PrefabSpawnData>, k: nat, vertices: seq<Vec3>, normals: seq<Vec3>, toWorld: Vec3 -> Vec3,
                      draws: seq<int>): (r: seq<Attachment>)
    requires k <= |rules| && |normals| == |vertices| && DrawsIn(draws, 0, Spawned(rules, k), |vertices|)
    ensures |r| == Spawned(rules, k)
  {
    if k == 0 then []
    else
      SpawnedMono(rules, k - 1, k);
      Placements(rules, k - 1, vertices, normals, toWorld, draws)
      + RulePlacements(rules[k - 1], vertices, normals, toWorld, draws, Spawned(rules, k - 1), SpawnCount(rules[k - 1]))
  }

  /** What the scatter instantiates for the whole rule list. */
  function Scatter(rules: seq<PrefabSpawnData>, vertices: seq<Vec3>, normals: seq<Vec3>, toWorld: Vec3 -> Vec3,
                   draws: seq<int>): (r: seq<Attachment>)
    requires |normals| == |vertices| && DrawsIn(draws, 0, TotalSpawn(rules), |vertices|)
    ensures |r| == TotalSpawn(rules)
  {
    Placements(rules, |rules|, vertices, normals, toWorld, draws)
  }

  lemma {:induction false} SpawnedMono(rules: seq<PrefabSpawnData>, j: nat, k: nat)
    requires j <= k <= |rules|
    ensures Spawned(rules, j) <= Spawned(rules, k)
  {
    if j < k {
      SpawnedMono(rules, j, k - 1);
    }
  }

  /** The scatter of the first j rules is a prefix of the scatter of the first k. */
  lemma {:induction false} PlacementsPrefix(rules: seq<PrefabSpawnData>, j: nat, k: nat, vertices: seq<Vec3>, normals: seq<Vec3>,
                                            toWorld: Vec3 -> Vec3, draws: seq<int>)
    requires j <= k <= |rules| && |normals| == |vertices| && DrawsIn(draws, 0, Spawned(rules, k), |vertices|)
    ensures Spawned(rules, j) <= Spawned(rules, k)
    ensures Placements(rules, j, vertices, normals, toWorld, draws)
            == Placements(rules, k, vertices, normals, toWorld, draws)[..Spawned(rules, j)]
  {
    SpawnedMono(rules, j, k);
    if j < k {
      SpawnedMono(rules, k - 1, k);
      PlacementsPrefix(rules, j, k - 1, vertices, normals, toWorld, draws);
    }
  }

  /**
   * Rule k contributes exactly SpawnCount(rules[k]) objects, placed at its
   * own run of draws, immediately after those of the rules before it.
   */
  lemma ScatterOfRule(rules: seq<PrefabSpawnData>, k: nat, vertices: seq<Vec3>, normals: seq<Vec3>, toWorld: Vec3 -> Vec3, draws: seq<int>)
    requires k < |rules| && |normals| == |vertices| && DrawsIn(draws, 0, TotalSpawn(rules), |vertices|)
    ensures Spawned(rules, k) + SpawnCount(rules[k]) <= TotalSpawn(rules)
    ensures Scatter(rules, vertices, normals, toWorld, draws)[Spawned(rules, k)..Spawned(rules, k) + SpawnCount(rules[k])]
            == RulePlacements(rules[k], vertices, normals, toWorld, draws, Spawned(rules, k), SpawnCount(rules[k]))
  {
    SpawnedMono(rules, k + 1, |rules|);
    PlacementsPrefix(rules, k + 1, |rules|, vertices, normals, toWorld, draws);
  }

  /** Each object of a rule's run sits on the vertex its draw names. */
  lemma {:induction false} RulePlacementsAt(rule: PrefabSpawnData, vertices: seq<Vec3>, normals: seq<Vec3>, toWorld: Vec3 -> Vec3,
                                            draws: seq<int>, from: nat, count: nat, j: nat)
    requires |normals| == |vertices| && DrawsIn(draws, from, from + count, |vertices|) && j < count
    ensures RulePlacements(rule, vertices, normals, toWorld, draws, from, count)[j] == Pose(rule, vertices, normals, toWorld, draws[from + j])
  {
    if j < count - 1 {
      RulePlacementsAt(rule, vertices, normals, toWorld, draws, from, count - 1, j);
    }
  }

  /**
   * Every object of the first k rules sits on a vertex of the mesh, pushed
   * along that vertex's normal by the offset of a rule that has a prefab and
   * a positive maxToSpawn, and carries that rule's prefab.
   */
  lemma {:induction false} PlacementsOnSurface(rules: seq<PrefabSpawnData>, k: nat, vertices: seq<Vec3>, normals: seq<Vec3>,
                                               toWorld: Vec3 -> Vec3, draws: seq<int>, j: nat)
    requires k <= |rules| && |normals| == |vertices| && DrawsIn(draws, 0, Spawned(rules, k), |vertices|)
    requires j < Spawned(rules, k)
    ensures var a := Placements(rules, k, vertices, normals, toWorld, draws)[j];
            a.vertex < |vertices| && a.up == normals[a.vertex] &&
            exists r :: r in rules && r.prefab.Prefab? && r.maxToSpawn > 0 && a.prefab == r.prefab &&
                        a.position == Add(toWorld(vertices[a.vertex]), Scale(normals[a.vertex], r.normalOffset))
  {
    var s := Spawned(rules, k - 1);
    SpawnedMono(rules, k - 1, k);
    if j < s {
      PlacementsOnSurface(rules, k - 1, vertices, normals, toWorld, draws, j);
    } else {
      RulePlacementsAt(rules[k - 1], vertices, normals, toWorld, draws, s, SpawnCount(rules[k - 1]), j - s);
      assert rules[k - 1] in rules;
    }
  }

  lemma DrawsJoin(draws: seq<int>, a: nat, b: nat, c: nat, n: nat)
    requires DrawsIn(draws, a, b, n) && DrawsIn(draws, b, c, n)
    ensures DrawsIn(draws, a, c, n)
  {
  }

  /** The scatter of the first k + 1 rules continues that of the first k with rule k. */
  lemma PlacementsStep(rules: seq<PrefabSpawnData>, k: nat, vertices: seq<Vec3>, normals: seq<Vec3>, toWorld: Vec3 -> Vec3,
                       draws: seq<int>)
    requires k < |rules| && |normals| == |vertices| && DrawsIn(draws, 0, Spawned(rules, k + 1), |vertices|)
    ensures Spawned(rules, k + 1) == Spawned(rules, k) + SpawnCount(rules[k])
    ensures Placements(rules, k + 1, vertices, normals, toWorld, draws)
         == Placements(rules, k, vertices, normals, toWorld, draws)
            + RulePlacements(rules[k], vertices, normals, toWorld, draws, Spawned(rules, k), SpawnCount(rules[k]))
    ensures SpawnCount(rules[k]) == 0 ==>
              Placements(rules, k + 1, vertices, normals, toWorld, draws) == Placements(rules, k, vertices, normals, toWorld, draws)
  {
  }

  /**
   * The inner loop of the scatter for one live rule: `toSpawn` times, draw a
   * vertex index starting at draw `start` and instantiate the rule's prefab
   * there. Drawing from an empty vertex array makes `vertices[index]` throw.
   */
  method PlaceRule(rule: PrefabSpawnData, vertices: seq<Vec3>, normals: seq<Vec3>, toWorld: Vec3 -> Vec3, draws: seq<int>, start: nat)
    returns (placed: seq<Attachment>, fault: bool)
    requires rule.prefab.Prefab? && rule.maxToSpawn > 0
    requires |normals| == |vertices| && start + SpawnCount(rule) <= |draws|
    requires forall j :: 0 <= j < |draws| ==> RangeDraw(draws[j], |vertices|)
    ensures fault <==> |vertices| == 0 && SpawnCount(rule) > 0
    ensures fault ==> placed == []
    ensures !fault ==> DrawsIn(draws, start, start + SpawnCount(rule), |vertices|) &&
                       placed == RulePlacements(rule, vertices, normals, toWorld, draws, start, SpawnCount(rule))
  {
    placed, fault := [], false;
    SpawnCountOfLiveRule(rule);
    var toSpawn := RoundToInt(SpawnTarget(rule));
    var d := start;
    var i := 0;
    while i < toSpawn
      invariant 0 <= i <= SpawnCount(rule)
      invariant d == start + i
      invariant |vertices| == 0 ==> i == 0
      invariant DrawsIn(draws, start, d, |vertices|)
      invariant placed == RulePlacements(rule, vertices, normals, toWorld, draws, start, i)
    {
      var index := draws[d];
      if index >= |vertices| {
        fault := true;
        return;
      }
      placed := placed + [Pose(rule, vertices, normals, toWorld, index)];
      d := d + 1;
      i := i + 1;
    }
  }

  /**
   * One turn of the scatter loop: rule k, skipped when it has no prefab or
   * maxToSpawn <= 0, placed with PlaceRule otherwise, `d` being the number
   * of draws the earlier rules used.
   */
  method PlaceNext(rules: seq<PrefabSpawnData>, k: nat, vertices: seq<Vec3>, normals: seq<Vec3>, toWorld: Vec3 -> Vec3,
                   draws: seq<int>, d: nat)
    returns (placed: seq<Attachment>, fault: bool)
    requires k < |rules| && |normals| == |vertices| && Spawned(rules, k + 1) <= |draws|
    requires d == Spawned(rules, k) && DrawsIn(draws, 0, d, |vertices|)
    requires forall j :: 0 <= j < |draws| ==> RangeDraw(draws[j], |vertices|)
    ensures fault <==> |vertices| == 0 && SpawnCount(rules[k]) > 0
    ensures fault ==> placed == []
    ensures !fault ==> DrawsIn(draws, 0, Spawned(rules, k + 1), |vertices|) &&
                       Placements(rules, k + 1, vertices, normals, toWorld, draws)
                       == Placements(rules, k, vertices, normals, toWorld, draws) + placed
  {
    var spawnData := rules[k];
    if spawnData.prefab.Prefab? && spawnData.maxToSpawn > 0 {
      placed, fault := PlaceRule(spawnData, vertices, normals, toWorld, draws, d);
      if !fault {
        DrawsJoin(draws, 0, d, d + SpawnCount(spawnData), |vertices|);
        PlacementsStep(rules, k, vertices, normals, toWorld, draws);
      }
    } else {
      placed, fault := [], false;
      PlacementsStep(rules, k, vertices, normals, toWorld, draws);
    }
  }

  /**
   * The scatter loop of GeneratePrefabs once the children are gone: rule
   * after rule, skipping rules without a prefab or with maxToSpawn <= 0, it
   * instantiates SpawnCount(rule) objects on drawn vertices.
   */
  method PlaceAll(rules: seq<PrefabSpawnData>, vertices: seq<Vec3>, normals: seq<Vec3>, toWorld: Vec3 -> Vec3, draws: seq<int>)
    returns (spawned: seq<Attachment>, fault: bool)
    requires |normals| == |vertices| && TotalSpawn(rules) <= |draws|
    requires forall j :: 0 <= j < |draws| ==> RangeDraw(draws[j], |vertices|)
    ensures fault <==> |vertices| == 0 && TotalSpawn(rules) > 0
    ensures fault ==> spawned == []
    ensures !fault ==> DrawsIn(draws, 0, TotalSpawn(rules), |vertices|) &&
                       spawned == Scatter(rules, vertices, normals, toWorld, draws)
  {
    spawned, fault := [], false;
    var k := 0;
    while k < |rules|
      invariant 0 <= k <= |rules|
      invariant |vertices| == 0 ==> Spawned(rules, k) == 0
      invariant DrawsIn(draws, 0, Spawned(rules, k), |vertices|)
      invariant spawned == Placements(rules, k, vertices, normals, toWorld, draws)
    {
      SpawnedMono(rules, k + 1, |rules|);
      var placed, failed := PlaceNext(rules, k, vertices, normals, toWorld, draws, |spawned|);
      if failed {
        spawned, fault := spawned + placed, true;
        return;
      }
      spawned := spawned + placed;
      k := k + 1;
    }
  }

  /**
   * What GeneratePrefabs leaves behind once it has read the mesh's
   * `vertices`: nothing and no fault without rules; nothing and an
   * IndexOutOfRangeException when an object is to be placed on a mesh
   * without vertices; otherwise exactly the scattered objects.
   */
  predicate Scattered(rules: seq<PrefabSpawnData>, vertices: seq<Vec3>, normals: seq<Vec3>, toWorld: Vec3 -> Vec3,
                      draws: seq<int>, fault: Option<Fault>, children: seq<Attachment>)
    requires |normals| == |vertices|
  {
    if rules == [] then fault == None && children == []
    else if |vertices| == 0 && TotalSpawn(rules) > 0 then fault == Some(IndexOutOfRangeException) && children == []
    else fault == None && DrawsIn(draws, 0, TotalSpawn(rules), |vertices|) &&
         children == Scatter(rules, vertices, normals, toWorld, draws)
  }

  /**
   * GeneratePrefabs leaves one outcome only: the same rules, mesh and draws
   * give the same fault and the same children.
   */
  lemma ScatteredDetermined(rules: seq<PrefabSpawnData>, vertices: seq<Vec3>, normals: seq<Vec3>, toWorld: Vec3 -> Vec3,
                            draws: seq<int>, fault: Option<Fault>, children: seq<Attachment>,
                            fault': Option<Fault>, children': seq<Attachment>)
    requires |normals| == |vertices|
    requires Scattered(rules, vertices, normals, toWorld, draws, fault, children)
    requires Scattered(rules, vertices, normals, toWorld, draws, fault', children')
    ensures fault == fault' && children == children'
  {
  }

  /**
   * SetPrefabNumber on a rule list: an index outside the list changes
   * nothing; otherwise exactly the spawnRatio of that entry becomes the
   * clamped input.
   */
  function WithSpawnRatio(rules: seq<PrefabSpawnData>, index: int, input: real): (r: seq<PrefabSpawnData>)
    ensures |r| == |rules|
    ensures !(0 <= index < |rules|) ==> r == rules
    ensures forall j :: 0 <= j < |rules| ==>
              r[j].prefab == rules[j].prefab && r[j].maxToSpawn == rules[j].maxToSpawn &&
              r[j].normalOffset == rules[j].normalOffset
    ensures forall j :: 0 <= j < |rules| && j != index ==> r[j].spawnRatio == rules[j].spawnRatio
    ensures 0 <= index < |rules| ==> r[index].spawnRatio == Clamp01(input)
  {
    if index < 0 || index >= |rules| then rules
    else
      var data := rules[index];
      rules[index := data.(spawnRatio := Clamp01(input))]
  }

  /** Spawn ratios set through SetPrefabNumber stay within [0, 1]. */
  lemma RatiosStayInUnit(rules: seq<PrefabSpawnData>, index: int, input: real)
    requires forall j :: 0 <= j < |rules| ==> 0.0 <= rules[j].spawnRatio <= 1.0
    ensures forall j :: 0 <= j < |rules| ==> 0.0 <= WithSpawnRatio(rules, index, input)[j].spawnRatio <= 1.0
  {
  }
}
