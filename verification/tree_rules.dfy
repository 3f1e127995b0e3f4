/**
  The selection, LOD and batching rules of `OGSTreePlanter` (Runtime/OGSTreePlanter.cs),
  lifted out of the rendering code as values: the weighted pick of `GetRandomTree`,
  the LOD choice of `GetLodIndexForHeight`, the per-LOD buckets and the 1023-instance
  chunks of `RenderTrees`, and the LOD table `ExtractLODGroups` reads off a prefab.
*/
module TreeRules {
  import opened Wrappers
  import opened Geometry

  /** `MAX_BATCH`: the most instances one instanced draw call takes. */
  const MaxBatch := 1023

  /** Engine objects the planter only passes around. */
  datatype MeshRef = MeshRef(id: nat)
  datatype MaterialRef = MaterialRef(id: nat)
  datatype BillboardRef = BillboardRef(id: nat)

  /** The placement of one tree: position, rotation about the vertical axis in degrees
      and uniform scale (`Matrix4x4.TRS(pos, Quaternion.Euler(0, yaw, 0), Vector3.one * scale)`). */
  datatype Matrix = TRS(position: Vec3, yaw: real, scale: real)

  /** `TreeLODInstanceBatch`: a mesh (none for a billboard), a material and a submesh. */
  datatype Batch = Batch(mesh: Option<MeshRef>, material: Option<MaterialRef>, subMeshIndex: int)

  /** What the engine reports about one tree matrix from the current camera: its
      distance and its screen-relative height. */
  datatype Sight = Sight(distance: real, screenHeight: real)

  function Min(a: int, b: int): int {
    if a <= b then a else b
  }

  // Weighted pick

  /** The weights of the first `k` trees, summed. */
  function PrefixWeight(weights: seq<int>, k: nat): int
    requires k <= |weights|
  {
    if k == 0 then 0 else PrefixWeight(weights, k - 1) + weights[k - 1]
  }

  function TotalWeight(weights: seq<int>): int {
    PrefixWeight(weights, |weights|)
  }

  /** The running weight sum up to and including tree `k`. */
  function RunningSum(weights: seq<int>, k: nat): int
    requires k < |weights|
  {
    PrefixWeight(weights, k + 1)
  }

  /** The walk of `GetRandomTree` from tree `k` on. */
  function PickFrom(weights: seq<int>, r: real, k: nat): (j: nat)
    requires k < |weights|
    ensures k <= j < |weights|
    decreases |weights| - k
  {
    if r < RunningSum(weights, k) as real then k
    else if k + 1 == |weights| then k
    else PickFrom(weights, r, k + 1)
  }

  /** `randomValue * totalWeight`, the point of `[0, totalWeight]` a random value picks. */
  function Target(weights: seq<int>, randomValue: real): real {
    randomValue * TotalWeight(weights) as real
  }

  /** The tree `GetRandomTree(randomValue)` returns: the first one whose running weight
      sum exceeds `randomValue * totalWeight`, otherwise the last one. */
  function Pick(weights: seq<int>, randomValue: real): (k: nat)
    requires |weights| > 0
    ensures k < |weights|
  {
    PickFrom(weights, Target(weights, randomValue), 0)
  }

  /** `PickFrom` stops at the first running sum above `r` at or after `k`, and falls
      through to the last tree when there is none. */
  lemma {:induction false} PickFromFirst(weights: seq<int>, r: real, k: nat)
    requires k < |weights|
    ensures var j := PickFrom(weights, r, k);
      && (forall i :: k <= i < j ==> RunningSum(weights, i) as real <= r)
      && (r < RunningSum(weights, j) as real || j == |weights| - 1)
    decreases |weights| - k
  {
    if !(r < RunningSum(weights, k) as real) && k + 1 < |weights| {
      PickFromFirst(weights, r, k + 1);
    }
  }

  /** `Pick` is the least index whose running sum exceeds `randomValue * total`; when
      no running sum does, it is the last index. */
  lemma PickIsFirst(weights: seq<int>, randomValue: real)
    requires |weights| > 0
    ensures var k := Pick(weights, randomValue); var r := Target(weights, randomValue);
      && (forall i :: 0 <= i < k ==> RunningSum(weights, i) as real <= r)
      && ((exists i :: 0 <= i < |weights| && r < RunningSum(weights, i) as real) ==>
            r < RunningSum(weights, k) as real)
      && ((forall i :: 0 <= i < |weights| ==> RunningSum(weights, i) as real <= r) ==>
            k == |weights| - 1)
  {
    var r := Target(weights, randomValue);
    PickFromFirst(weights, r, 0);
  }

  predicate AllPositive(weights: seq<int>) {
    forall i :: 0 <= i < |weights| ==> weights[i] > 0
  }

  predicate AllNonNegative(weights: seq<int>) {
    forall i :: 0 <= i < |weights| ==> weights[i] >= 0
  }

  /** With non-negative weights the running sums never decrease. */
  lemma {:induction false} PrefixMonotone(weights: seq<int>, i: nat, j: nat)
    requires AllNonNegative(weights) && i <= j <= |weights|
    ensures PrefixWeight(weights, i) <= PrefixWeight(weights, j)
    decreases j - i
  {
    if i < j {
      PrefixMonotone(weights, i, j - 1);
    }
  }

  /** For positive weights and `0 <= randomValue < 1`, the picked tree `k` is the one
      whose weight interval `[sum of weights before k, sum up to k)` contains
      `randomValue * total`: each tree is chosen for a share of the unit interval
      proportional to its weight. */
  lemma PickInterval(weights: seq<int>, randomValue: real)
    requires |weights| > 0 && AllPositive(weights)
    requires 0.0 <= randomValue < 1.0
    ensures var k := Pick(weights, randomValue); var r := Target(weights, randomValue);
      PrefixWeight(weights, k) as real <= r < PrefixWeight(weights, k + 1) as real
  {
    var total := TotalWeight(weights);
    assert 0 < total by {
      PrefixMonotone(weights, 0, |weights| - 1);
      PrefixMonotone(weights, |weights| - 1, |weights|);
    }
    ScaledBelow(randomValue, total as real);
    var r := Target(weights, randomValue);
    assert r == randomValue * total as real;
    PickFromInterval(weights, r);
  }

  /** The walk from the first tree, for a point `r` inside `[0, total)`. */
  lemma PickFromInterval(weights: seq<int>, r: real)
    requires |weights| > 0 && AllPositive(weights)
    requires 0.0 <= r < TotalWeight(weights) as real
    ensures var k := PickFrom(weights, r, 0);
      PrefixWeight(weights, k) as real <= r < PrefixWeight(weights, k + 1) as real
  {
    var k := PickFrom(weights, r, 0);
    PickFromFirst(weights, r, 0);
    PrefixMonotone(weights, k + 1, |weights|);
    if k > 0 {
      assert RunningSum(weights, k - 1) as real <= r;
    }
    if k == |weights| - 1 {
      assert RunningSum(weights, k) == TotalWeight(weights);
    }
  }

  /** A fraction below one of a positive amount stays below it. */
  lemma ScaledBelow(v: real, t: real)
    requires 0.0 <= v < 1.0 && 0.0 < t
    ensures 0.0 <= v * t < t
  {
    assert t - v * t == (1.0 - v) * t;
  }

  /** A tree of weight zero is never picked for a non-negative random value unless it
      is the last one (the fallback). */
  lemma ZeroWeightNotPicked(weights: seq<int>, randomValue: real, k: nat)
    requires |weights| > 0 && AllNonNegative(weights) && randomValue >= 0.0
    requires k < |weights| - 1 && weights[k] == 0
    ensures Pick(weights, randomValue) != k
  {
    PickIsFirst(weights, randomValue);
    PrefixMonotone(weights, 0, |weights|);
    var r := Target(weights, randomValue);
    assert 0.0 <= r;
    assert k > 0 ==> RunningSum(weights, k) == RunningSum(weights, k - 1);
  }

  /** `Random.value` can be exactly 1. Then no running sum of positive weights exceeds
      `randomValue * total`, and `GetRandomTree` takes its fall-through branch. */
  lemma PickAtOne(weights: seq<int>)
    requires |weights| > 0 && AllPositive(weights)
    ensures Pick(weights, 1.0) == |weights| - 1
    ensures forall i :: 0 <= i < |weights| ==> RunningSum(weights, i) as real <= Target(weights, 1.0)
  {
    forall i | 0 <= i < |weights|
      ensures RunningSum(weights, i) as real <= Target(weights, 1.0)
    {
      PrefixMonotone(weights, i + 1, |weights|);
    }
    PickIsFirst(weights, 1.0);
  }

  // LOD choice

  /** The loop of `GetLodIndexForHeight` from LOD `l` on. */
  function FirstReached(starts: seq<real>, h: real, l: nat): (r: int)
    requires l <= |starts|
    ensures r == |starts| - 1 || l <= r < |starts|
    decreases |starts| - l
  {
    if l == |starts| then |starts| - 1
    else if h >= starts[l] then l
    else FirstReached(starts, h, l + 1)
  }

  /** `GetLodIndexForHeight`: the first LOD whose transition height `h` reaches, or the
      last LOD when it reaches none. */
  function LodIndexForHeight(starts: seq<real>, h: real): (l: int)
    ensures -1 <= l < |starts|
  {
    FirstReached(starts, h, 0)
  }

  lemma {:induction false} FirstReachedIsLeast(starts: seq<real>, h: real, l: nat)
    requires l <= |starts|
    ensures var r := FirstReached(starts, h, l);
      && (forall j :: l <= j < r ==> h < starts[j])
      && ((exists j :: l <= j < |starts| && h >= starts[j]) ==> 0 <= r < |starts| && h >= starts[r])
      && ((forall j :: l <= j < |starts| ==> h < starts[j]) ==> r == |starts| - 1)
    decreases |starts| - l
  {
    if l < |starts| && h < starts[l] {
      FirstReachedIsLeast(starts, h, l + 1);
    }
  }

  /** The chosen LOD is the least one whose transition height is reached; when none
      is reached it is the last LOD (and `-1` for a tree without LODs). */
  lemma LodIndexIsLeast(starts: seq<real>, h: real)
    ensures var l := LodIndexForHeight(starts, h);
      && (forall j :: 0 <= j < l ==> h < starts[j])
      && ((exists j :: 0 <= j < |starts| && h >= starts[j]) ==> 0 <= l && h >= starts[l])
      && ((forall j :: 0 <= j < |starts| ==> h < starts[j]) ==> l == |starts| - 1)
  {
    FirstReachedIsLeast(starts, h, 0);
  }

  /** A tree that covers more of the screen never gets a coarser LOD. */
  lemma LodIndexMonotone(starts: seq<real>, h1: real, h2: real)
    requires h1 <= h2
    ensures LodIndexForHeight(starts, h2) <= LodIndexForHeight(starts, h1)
  {
    LodIndexIsLeast(starts, h1);
    LodIndexIsLeast(starts, h2);
    var l1 := LodIndexForHeight(starts, h1);
    if 0 <= l1 && h1 >= starts[l1] {
      assert h2 >= starts[l1];
    }
  }

  // Buckets

  /** The bucket a tree matrix goes to: none when it is farther than the render
      distance or smaller on screen than the cull height, otherwise the LOD its screen
      height selects. */
  function Bucket(starts: seq<real>, cullHeight: real, maxDistance: real, s: Sight): (b: Option<nat>)
    requires |starts| > 0
    ensures b.Some? ==> b.value < |starts|
  {
    if s.distance > maxDistance then None
    else if s.screenHeight < cullHeight then None
    else Some(LodIndexForHeight(starts, s.screenHeight) as nat)
  }

  /** The buckets after the matrices `ms` have been sorted in order. */
  function BucketsOf(starts: seq<real>, cullHeight: real, maxDistance: real, ms: seq<Matrix>, sight: Matrix -> Sight): (buckets: seq<seq<Matrix>>)
    requires |starts| > 0
    ensures |buckets| == |starts|
  {
    if ms == [] then seq(|starts|, _ => [])
    else
      var before := BucketsOf(starts, cullHeight, maxDistance, ms[..|ms| - 1], sight);
      var m := ms[|ms| - 1];
      match Bucket(starts, cullHeight, maxDistance, sight(m))
      case None => before
      case Some(l) => before[l := before[l] + [m]]
  }

  /** The matrices, in order, whose bucket is `b`. */
  function Selected(starts: seq<real>, cullHeight: real, maxDistance: real, ms: seq<Matrix>, sight: Matrix -> Sight, b: Option<nat>): seq<Matrix>
    requires |starts| > 0
  {
    if ms == [] then []
    else
      var before := Selected(starts, cullHeight, maxDistance, ms[..|ms| - 1], sight, b);
      var m := ms[|ms| - 1];
      if Bucket(starts, cullHeight, maxDistance, sight(m)) == b then before + [m] else before
  }

  /** Bucket `l` holds exactly the matrices whose bucket is `l`, in their original
      order. */
  lemma {:induction false} BucketContents(starts: seq<real>, cullHeight: real, maxDistance: real, ms: seq<Matrix>, sight: Matrix -> Sight, l: nat)
    requires |starts| > 0 && l < |starts|
    ensures BucketsOf(starts, cullHeight, maxDistance, ms, sight)[l] == Selected(starts, cullHeight, maxDistance, ms, sight, Some(l))
  {
    if ms != [] {
      BucketContents(starts, cullHeight, maxDistance, ms[..|ms| - 1], sight, l);
    }
  }

  function SumLengths(buckets: seq<seq<Matrix>>): nat {
    if buckets == [] then 0 else SumLengths(buckets[..|buckets| - 1]) + |buckets[|buckets| - 1]|
  }

  lemma {:induction false} SumLengthsUpdate(buckets: seq<seq<Matrix>>, l: nat, m: Matrix)
    requires l < |buckets|
    ensures SumLengths(buckets[l := buckets[l] + [m]]) == SumLengths(buckets) + 1
  {
    var last := |buckets| - 1;
    var updated := buckets[l := buckets[l] + [m]];
    if l < last {
      assert updated[..last] == buckets[..last][l := buckets[l] + [m]];
      SumLengthsUpdate(buckets[..last], l, m);
    } else {
      assert updated[..last] == buckets[..last];
    }
  }

  lemma {:induction false} SumLengthsEmpty(n: nat)
    ensures SumLengths(seq(n, _ => [])) == 0
  {
    if n > 0 {
      var none: seq<Matrix> := [];
      assert seq(n, _ => none)[..n - 1] == seq(n - 1, _ => none);
      SumLengthsEmpty(n - 1);
    }
  }

  /** Every matrix is either dropped or lands in exactly one bucket: the bucket sizes
      and the number dropped add up to the number of matrices. */
  lemma {:induction false} BucketsPartition(starts: seq<real>, cullHeight: real, maxDistance: real, ms: seq<Matrix>, sight: Matrix -> Sight)
    requires |starts| > 0
    ensures SumLengths(BucketsOf(starts, cullHeight, maxDistance, ms, sight))
      + |Selected(starts, cullHeight, maxDistance, ms, sight, None)| == |ms|
  {
    if ms == [] {
      SumLengthsEmpty(|starts|);
    } else {
      var init := ms[..|ms| - 1];
      BucketsPartition(starts, cullHeight, maxDistance, init, sight);
      var m := ms[|ms| - 1];
      var before := BucketsOf(starts, cullHeight, maxDistance, init, sight);
      match Bucket(starts, cullHeight, maxDistance, sight(m))
      case None =>
      case Some(l) =>
        SumLengthsUpdate(before, l, m);
    }
  }

  // Chunks

  /** The chunks of `ms` from index `i` on: `[i, i + min(1023, |ms| - i))`, then the
      next 1023 and so on. */
  function ChunksFrom(ms: seq<Matrix>, i: nat): seq<seq<Matrix>>
    decreases |ms| - i
  {
    if i >= |ms| then []
    else [ms[i..i + Min(MaxBatch, |ms| - i)]] + ChunksFrom(ms, i + MaxBatch)
  }

  function Chunks(ms: seq<Matrix>): seq<seq<Matrix>> {
    ChunksFrom(ms, 0)
  }

  function Flatten(chunks: seq<seq<Matrix>>): seq<Matrix> {
    if chunks == [] then [] else chunks[0] + Flatten(chunks[1..])
  }

  /** The chunks cover every index exactly once, in order, each 1 to 1023 long, and
      there are `ceil(|ms| / 1023)` of them. */
  lemma {:induction false} ChunksCover(ms: seq<Matrix>, i: nat)
    requires i <= |ms|
    ensures Flatten(ChunksFrom(ms, i)) == ms[i..]
    ensures forall k :: 0 <= k < |ChunksFrom(ms, i)| ==> 1 <= |ChunksFrom(ms, i)[k]| <= MaxBatch
    ensures |ChunksFrom(ms, i)| == (|ms| - i + MaxBatch - 1) / MaxBatch
    decreases |ms| - i
  {
    if i < |ms| {
      var n := Min(MaxBatch, |ms| - i);
      if i + MaxBatch <= |ms| {
        ChunksCover(ms, i + MaxBatch);
        assert ms[i..] == ms[i..i + n] + ms[i + MaxBatch..];
      } else {
        assert ChunksFrom(ms, i + MaxBatch) == [];
        assert ms[i..i + n] == ms[i..];
      }
      var cs := ChunksFrom(ms, i);
      assert cs[1..] == ChunksFrom(ms, i + MaxBatch);
    }
  }

  // The LOD table of a prefab

  /** A mesh as its renderer's `MeshFilter` holds it. */
  datatype MeshSource = MeshSource(mesh: MeshRef, subMeshCount: nat)

  /** One renderer of a LOD: a billboard with its material and its `BillboardAsset`
      (either may be missing), or a mesh renderer whose filter may hold no mesh, with
      its shared materials. */
  datatype RendererSource =
    | BillboardRenderer(billboardMaterial: Option<MaterialRef>, asset: Option<BillboardRef>)
    | MeshRenderer(meshSource: Option<MeshSource>, materials: seq<Option<MaterialRef>>)

  /** One entry of the prefab's `LODGroup`. */
  datatype LodSource = LodSource(transitionHeight: real, renderers: seq<RendererSource>)

  /** What instantiating a tree prefab shows: its name, the height of the bounds of
      the renderers the child-renderer lookup returns (none when it returns none),
      and its `LODGroup`'s LODs (none without a `LODGroup`). */
  datatype Prefab = Prefab(name: string, boundsHeight: Option<real>, lodGroup: Option<seq<LodSource>>)

  datatype TreeError = MissingMesh | NoMaterials

  /** The value of one `TreeLODGroup` built by `ExtractLODGroups`. */
  datatype LodSpec = LodSpec(lodStart: real, lodEnd: real, batches: seq<Batch>)

  /** `baseHeight`: the height of the bounds of the renderers found, or 1. */
  function BaseHeight(p: Prefab): real {
    match p.boundsHeight
    case Some(h) => h
    case None => 1.0
  }

  /** The material of submesh `s`: `materials[min(s, materials.Length - 1)]`, so extra
      submeshes reuse the last material; an empty material array fails. */
  function SubmeshMaterial(materials: seq<Option<MaterialRef>>, s: nat): (r: Result<Option<MaterialRef>, TreeError>)
    ensures r.Success? <==> |materials| > 0
  {
    if |materials| == 0 then Failure(NoMaterials)
    else Success(materials[Min(s, |materials| - 1)])
  }

  /** Submesh `s` takes material `s` while there is one, and the last one after. */
  lemma SubmeshMaterialChoice(materials: seq<Option<MaterialRef>>, s: nat)
    requires |materials| > 0
    ensures s < |materials| ==> SubmeshMaterial(materials, s) == Success(materials[s])
    ensures s >= |materials| ==> SubmeshMaterial(materials, s) == Success(materials[|materials| - 1])
  {
  }

  /** The batches of submeshes `0 .. n - 1` of a mesh, one per submesh. */
  function SubmeshBatches(m: MeshRef, materials: seq<Option<MaterialRef>>, n: nat): (r: Result<seq<Batch>, TreeError>)
    ensures r.Success? ==> |r.value| == n
  {
    if n == 0 then Success([])
    else
      var before :- SubmeshBatches(m, materials, n - 1);
      var mat :- SubmeshMaterial(materials, n - 1);
      Success(before + [Batch(Some(m), mat, n - 1)])
  }

  /** Batch `s` of a mesh is submesh `s` of that mesh with its material. */
  lemma {:induction false} SubmeshBatchesContent(m: MeshRef, materials: seq<Option<MaterialRef>>, n: nat)
    ensures SubmeshBatches(m, materials, n).Success? <==> (n == 0 || |materials| > 0)
    ensures SubmeshBatches(m, materials, n).Success? ==> forall s :: 0 <= s < n ==>
      SubmeshBatches(m, materials, n).value[s] == Batch(Some(m), SubmeshMaterial(materials, s).value, s)
  {
    if n > 0 {
      SubmeshBatchesContent(m, materials, n - 1);
    }
  }

  /** The batches one renderer contributes: one batch without a mesh for a billboard,
      one per submesh for a mesh renderer. A mesh renderer without a mesh fails. */
  function RendererBatches(r: RendererSource): Result<seq<Batch>, TreeError> {
    match r
    case BillboardRenderer(material, _) => Success([Batch(None, material, 0)])
    case MeshRenderer(None, _) => Failure(MissingMesh)
    case MeshRenderer(Some(ms), materials) => SubmeshBatches(ms.mesh, materials, ms.subMeshCount)
  }

  /** The batches of the first `k` renderers of a LOD, in order. */
  function LodBatches(rs: seq<RendererSource>): Result<seq<Batch>, TreeError> {
    if rs == [] then Success([])
    else
      var before :- LodBatches(rs[..|rs| - 1]);
      var more :- RendererBatches(rs[|rs| - 1]);
      Success(before + more)
  }

  /** `lodEnd` of LOD `i`: 1 for LOD 0, the previous LOD's transition height after. */
  function LodEnd(sources: seq<LodSource>, i: nat): real
    requires i < |sources|
  {
    if i == 0 then 1.0 else sources[i - 1].transitionHeight
  }

  /** The LOD table of the first `|sources|` LODs. */
  function LodTable(sources: seq<LodSource>): (r: Result<seq<LodSpec>, TreeError>)
    ensures r.Success? ==> |r.value| == |sources|
  {
    if sources == [] then Success([])
    else
      var i := |sources| - 1;
      var before :- LodTable(sources[..i]);
      var batches :- LodBatches(sources[i].renderers);
      Success(before + [LodSpec(sources[i].transitionHeight, LodEnd(sources, i), batches)])
  }

  /** Entry `i` of the table starts at LOD `i`'s transition height and ends where LOD
      `i - 1` starts (LOD 0 ends at 1), so consecutive LODs share their boundary. */
  lemma {:induction false} LodTableEntries(sources: seq<LodSource>)
    requires LodTable(sources).Success?
    ensures var t := LodTable(sources).value;
      && (forall i :: 0 <= i < |sources| ==> t[i].lodStart == sources[i].transitionHeight)
      && (|sources| > 0 ==> t[0].lodEnd == 1.0)
      && (forall i :: 0 < i < |sources| ==> t[i].lodEnd == t[i - 1].lodStart)
      && (forall i :: 0 <= i < |sources| ==> LodBatches(sources[i].renderers) == Success(t[i].batches))
  {
    if sources != [] {
      var i := |sources| - 1;
      LodTableEntries(sources[..i]);
      var t := LodTable(sources).value;
      assert t[..i] == LodTable(sources[..i]).value;
      forall j | 0 <= j < i
        ensures t[j].lodStart == sources[j].transitionHeight
        ensures LodBatches(sources[j].renderers) == Success(t[j].batches)
      {
        assert sources[..i][j] == sources[j];
      }
    }
  }

  /** Once the batches of some renderers fail, the batches of the whole LOD fail. */
  lemma {:induction false} LodBatchesPrefixFailure(rs: seq<RendererSource>, k: nat)
    requires k <= |rs| && LodBatches(rs[..k]).Failure?
    ensures LodBatches(rs).Failure?
    decreases |rs| - k
  {
    if k < |rs| {
      assert rs[..k + 1][..k] == rs[..k];
      LodBatchesPrefixFailure(rs, k + 1);
    } else {
      assert rs[..k] == rs;
    }
  }

  /** Once the table of some LODs fails, the whole table fails. */
  lemma {:induction false} LodTablePrefixFailure(sources: seq<LodSource>, k: nat)
    requires k <= |sources| && LodTable(sources[..k]).Failure?
    ensures LodTable(sources).Failure?
    decreases |sources| - k
  {
    if k < |sources| {
      assert sources[..k + 1][..k] == sources[..k];
      LodTablePrefixFailure(sources, k + 1);
    } else {
      assert sources[..k] == sources;
    }
  }

  /** Where the renderer loop of a LOD stops when started at renderer `j`: the first
      renderer from `j` on whose batches fail (it throws), or `|rs|` when none does. */
  function FailingRendererFrom(rs: seq<RendererSource>, j: nat): (k: nat)
    requires j <= |rs| && LodBatches(rs[..j]).Success?
    ensures j <= k <= |rs| && LodBatches(rs[..k]).Success?
    ensures k < |rs| ==> RendererBatches(rs[k]).Failure?
    decreases |rs| - j
  {
    if j == |rs| || RendererBatches(rs[j]).Failure? then j
    else
      assert rs[..j + 1][..j] == rs[..j];
      FailingRendererFrom(rs, j + 1)
  }

  /** The renderer the loop over a LOD's renderers throws at, or `|rs|`. */
  function FailingRenderer(rs: seq<RendererSource>): (k: nat)
    ensures k <= |rs| && LodBatches(rs[..k]).Success?
    ensures k < |rs| ==> RendererBatches(rs[k]).Failure?
  {
    assert rs[..0] == [];
    FailingRendererFrom(rs, 0)
  }

  /** The loop runs through every renderer exactly when the LOD's batches exist. */
  lemma FailingRendererRule(rs: seq<RendererSource>)
    ensures FailingRenderer(rs) == |rs| <==> LodBatches(rs).Success?
  {
    var k := FailingRenderer(rs);
    if k < |rs| {
      assert rs[..k + 1][..k] == rs[..k];
      LodBatchesPrefixFailure(rs, k + 1);
    } else {
      assert rs[..k] == rs;
    }
  }

  /** Where the LOD loop of `ExtractLODGroups` stops when started at LOD `i`: the first
      LOD from `i` on whose batches fail, or `|sources|` when none does. */
  function FailingLodFrom(sources: seq<LodSource>, i: nat): (k: nat)
    requires i <= |sources| && LodTable(sources[..i]).Success?
    ensures i <= k <= |sources| && LodTable(sources[..k]).Success?
    ensures k < |sources| ==> LodBatches(sources[k].renderers).Failure?
    decreases |sources| - i
  {
    if i == |sources| || LodBatches(sources[i].renderers).Failure? then i
    else
      assert sources[..i + 1][..i] == sources[..i];
      FailingLodFrom(sources, i + 1)
  }

  /** The LOD the extraction throws at, or `|sources|`. */
  function FailingLod(sources: seq<LodSource>): (k: nat)
    ensures k <= |sources| && LodTable(sources[..k]).Success?
    ensures k < |sources| ==> LodBatches(sources[k].renderers).Failure?
  {
    assert sources[..0] == [];
    FailingLodFrom(sources, 0)
  }

  /** The loop runs through every LOD exactly when the whole table exists. */
  lemma FailingLodRule(sources: seq<LodSource>)
    ensures FailingLod(sources) == |sources| <==> LodTable(sources).Success?
  {
    var k := FailingLod(sources);
    if k < |sources| {
      assert sources[..k + 1][..k] == sources[..k];
      LodTablePrefixFailure(sources, k + 1);
    } else {
      assert sources[..k] == sources;
    }
  }

  /** The billboard fields of a tree: whether it has one, its asset and its material. */
  datatype BillboardInfo = BillboardInfo(hasBillboard: bool, asset: Option<BillboardRef>, material: Option<MaterialRef>)

  /** The billboard fields after visiting the renderers `rs` in order: every billboard
      renderer overwrites them, other renderers leave them alone. */
  function BillboardAfter(rs: seq<RendererSource>, init: BillboardInfo): BillboardInfo {
    if rs == [] then init
    else
      var last := rs[|rs| - 1];
      if last.BillboardRenderer? then BillboardInfo(true, last.asset, last.billboardMaterial)
      else BillboardAfter(rs[..|rs| - 1], init)
  }

  /** The billboard fields after visiting the renderers of every LOD in order. */
  function BillboardAfterLods(sources: seq<LodSource>, init: BillboardInfo): BillboardInfo {
    if sources == [] then init
    else BillboardAfter(sources[|sources| - 1].renderers, BillboardAfterLods(sources[..|sources| - 1], init))
  }

  /** The billboard fields when the LOD loop throws: after every renderer of the
      LODs before the failing one, then those of the failing LOD before the renderer
      that throws. */
  function BillboardAtFailure(sources: seq<LodSource>, init: BillboardInfo): BillboardInfo
    requires FailingLod(sources) < |sources|
  {
    var i := FailingLod(sources);
    var rs := sources[i].renderers;
    BillboardAfter(rs[..FailingRenderer(rs)], BillboardAfterLods(sources[..i], init))
  }

  predicate HasBillboardRenderer(rs: seq<RendererSource>) {
    exists j :: 0 <= j < |rs| && rs[j].BillboardRenderer?
  }

  /** After the renderers, the billboard is the last billboard renderer's; without a
      billboard renderer the fields are as before. */
  lemma {:induction false} BillboardAfterRule(rs: seq<RendererSource>, init: BillboardInfo)
    ensures var r := BillboardAfter(rs, init);
      && (!HasBillboardRenderer(rs) ==> r == init)
      && (HasBillboardRenderer(rs) ==>
            exists j :: (0 <= j < |rs| && rs[j].BillboardRenderer?
              && r == BillboardInfo(true, rs[j].asset, rs[j].billboardMaterial)
              && forall k :: j < k < |rs| ==> !rs[k].BillboardRenderer?))
  {
    if rs != [] {
      var n := |rs| - 1;
      var front := rs[..n];
      var r := BillboardAfter(rs, init);
      BillboardAfterRule(front, init);
      if rs[n].BillboardRenderer? {
        assert rs[n].BillboardRenderer? && r == BillboardInfo(true, rs[n].asset, rs[n].billboardMaterial);
      } else {
        assert r == BillboardAfter(front, init);
        if HasBillboardRenderer(rs) {
          var j :| 0 <= j < |rs| && rs[j].BillboardRenderer?;
          assert front[j] == rs[j];
          var i :| 0 <= i < n && front[i].BillboardRenderer?
            && r == BillboardInfo(true, front[i].asset, front[i].billboardMaterial)
            && forall k :: i < k < n ==> !front[k].BillboardRenderer?;
          assert front[i] == rs[i];
          forall k | i < k < |rs|
            ensures !rs[k].BillboardRenderer?
          {
            if k < n {
              assert front[k] == rs[k];
            }
          }
        } else {
          assert !HasBillboardRenderer(front) by {
            forall j | 0 <= j < n ensures !front[j].BillboardRenderer? {
              assert front[j] == rs[j];
            }
          }
        }
      }
    }
  }

  /** `hasBillboard` is set exactly when it was set before or some LOD has a billboard
      renderer: it is never cleared again. */
  lemma {:induction false} BillboardAfterLodsFlag(sources: seq<LodSource>, init: BillboardInfo)
    ensures BillboardAfterLods(sources, init).hasBillboard <==>
      (init.hasBillboard || exists i :: 0 <= i < |sources| && HasBillboardRenderer(sources[i].renderers))
  {
    if sources != [] {
      var n := |sources| - 1;
      BillboardAfterLodsFlag(sources[..n], init);
      var before := BillboardAfterLods(sources[..n], init);
      BillboardAfterRule(sources[n].renderers, before);
      if exists i :: 0 <= i < n && HasBillboardRenderer(sources[..n][i].renderers) {
        var i :| 0 <= i < n && HasBillboardRenderer(sources[..n][i].renderers);
        assert sources[..n][i] == sources[i];
      }
      if exists i :: 0 <= i < |sources| && HasBillboardRenderer(sources[i].renderers) {
        var i :| 0 <= i < |sources| && HasBillboardRenderer(sources[i].renderers);
        if i < n {
          assert sources[..n][i] == sources[i];
        }
      }
    }
  }

  // Planting

  /** The random draws for one planted tree (the tree's position is worked out by the
      terrain): the value `GetRandomTree` is called with, the fraction of the tree's scale
      range its scale lies at, and the fraction of a full turn it is rotated by. */
  datatype Placement = Placement(position: Vec3, pickValue: real, scaleFraction: real, turnFraction: real)

  /** `Random.Range(range.x, range.y)` for the draw `f` in `[0, 1]`. */
  function RangeValue(range: Vec2, f: real): real {
    range.x + (range.y - range.x) * f
  }

  /** The matrix planted for `p` with a tree whose scale range is `range`. */
  function PlacementMatrix(range: Vec2, p: Placement): (m: Matrix)
    ensures m.position == p.position
  {
    TRS(p.position, p.turnFraction * 360.0, RangeValue(range, p.scaleFraction))
  }

  /** A scale fraction in `[0, 1]` gives a scale inside the tree's range. */
  lemma PlacementScaleInRange(range: Vec2, p: Placement)
    requires range.x <= range.y && 0.0 <= p.scaleFraction <= 1.0
    ensures range.x <= PlacementMatrix(range, p).scale <= range.y
  {
    var d := range.y - range.x;
    assert d * p.scaleFraction <= d * 1.0 by {
      assert d * (1.0 - p.scaleFraction) >= 0.0;
    }
  }

  /** How many of the placements pick tree `k`. */
  function PickCount(weights: seq<int>, k: nat, ps: seq<Placement>): nat
    requires |weights| > 0
  {
    if ps == [] then 0
    else PickCount(weights, k, ps[..|ps| - 1]) + (if Pick(weights, ps[|ps| - 1].pickValue) == k then 1 else 0)
  }

  /** The matrices planting `ps` appends to the group `g`, for trees with weights `ws`,
      first LODs `firsts` (none for a tree without LODs) and scale ranges `ranges`:
      those of the placements whose picked tree has `g` as its first LOD, in order. */
  function Planted<G(==)>(ws: seq<int>, firsts: seq<Option<G>>, ranges: seq<Vec2>, g: G, ps: seq<Placement>): seq<Matrix>
    requires |ws| > 0 && |firsts| == |ranges| == |ws|
  {
    if ps == [] then []
    else
      var before := Planted(ws, firsts, ranges, g, ps[..|ps| - 1]);
      var p := ps[|ps| - 1];
      var k := Pick(ws, p.pickValue);
      if firsts[k] == Some(g) then before + [PlacementMatrix(ranges[k], p)] else before
  }

  /** Planting one more placement appends at most its matrix. */
  lemma PlantedStep<G>(ws: seq<int>, firsts: seq<Option<G>>, ranges: seq<Vec2>, g: G, ps: seq<Placement>, k: nat,
                      base: seq<Matrix>, before: seq<Matrix>, after: seq<Matrix>)
    requires |ws| > 0 && |firsts| == |ranges| == |ws| && k < |ps|
    requires before == base + Planted(ws, firsts, ranges, g, ps[..k])
    requires var c := Pick(ws, ps[k].pickValue);
      after == before + if firsts[c] == Some(g) then [PlacementMatrix(ranges[c], ps[k])] else []
    ensures after == base + Planted(ws, firsts, ranges, g, ps[..k + 1])
  {
    assert ps[..k + 1][..k] == ps[..k];
    var c := Pick(ws, ps[k].pickValue);
    var step := if firsts[c] == Some(g) then [PlacementMatrix(ranges[c], ps[k])] else [];
    assert base + Planted(ws, firsts, ranges, g, ps[..k]) + step == base + (Planted(ws, firsts, ranges, g, ps[..k]) + step);
  }

  /** A group that is not the first LOD of any tree receives nothing. */
  lemma {:induction false} PlantedOnlyIntoFirstLods<G>(ws: seq<int>, firsts: seq<Option<G>>, ranges: seq<Vec2>, g: G, ps: seq<Placement>)
    requires |ws| > 0 && |firsts| == |ranges| == |ws|
    requires forall a :: 0 <= a < |firsts| ==> firsts[a] != Some(g)
    ensures Planted(ws, firsts, ranges, g, ps) == []
  {
    if ps != [] {
      PlantedOnlyIntoFirstLods(ws, firsts, ranges, g, ps[..|ps| - 1]);
    }
  }

  /** When no other tree shares tree `k`'s first LOD, that LOD receives one matrix per
      placement that picks tree `k`, and each is placed where its placement says. */
  lemma {:induction false} PlantedCount<G>(ws: seq<int>, firsts: seq<Option<G>>, ranges: seq<Vec2>, k: nat, ps: seq<Placement>)
    requires |ws| > 0 && |firsts| == |ranges| == |ws|
    requires k < |ws| && firsts[k].Some?
    requires forall a :: 0 <= a < |firsts| && firsts[a] == firsts[k] ==> a == k
    ensures |Planted(ws, firsts, ranges, firsts[k].value, ps)| == PickCount(ws, k, ps)
  {
    if ps != [] {
      PlantedCount(ws, firsts, ranges, k, ps[..|ps| - 1]);
    }
  }

  // Draw calls

  /** Where a billboard stands in for a tree: its position and its height scale (the
      rotation faces the camera). */
  datatype BillboardInstance = BillboardInstance(position: Vec3, scale: real)

  /** One instanced draw call: a submesh of a mesh with a material, or the billboard
      quad with the tree's billboard material. */
  datatype DrawCall =
    | MeshDraw(mesh: MeshRef, subMeshIndex: int, material: MaterialRef, instances: seq<Matrix>, castShadows: bool)
    | BillboardDraw(billboardMaterial: MaterialRef, billboards: seq<BillboardInstance>)

  function InstanceCount(d: DrawCall): nat {
    match d
    case MeshDraw(_, _, _, instances, _) => |instances|
    case BillboardDraw(_, billboards) => |billboards|
  }

  /** Every call draws between 1 and `MaxBatch` instances. */
  predicate AllSized(ds: seq<DrawCall>) {
    forall k :: 0 <= k < |ds| ==> 1 <= InstanceCount(ds[k]) <= MaxBatch
  }

  predicate AllChunksSized(chunks: seq<seq<Matrix>>) {
    forall k :: 0 <= k < |chunks| ==> 1 <= |chunks[k]| <= MaxBatch
  }

  /** One draw call per chunk, for a batch with a mesh and a material. */
  function ChunkDraws(mesh: MeshRef, subMeshIndex: int, material: MaterialRef, chunks: seq<seq<Matrix>>, castShadows: bool): seq<DrawCall> {
    if chunks == [] then []
    else [MeshDraw(mesh, subMeshIndex, material, chunks[0], castShadows)] + ChunkDraws(mesh, subMeshIndex, material, chunks[1..], castShadows)
  }

  /** Draw call `k` of a batch draws chunk `k` with the batch's mesh, submesh and
      material. */
  lemma {:induction false} ChunkDrawsEach(mesh: MeshRef, subMeshIndex: int, material: MaterialRef, chunks: seq<seq<Matrix>>, castShadows: bool)
    ensures var ds := ChunkDraws(mesh, subMeshIndex, material, chunks, castShadows);
      |ds| == |chunks| && forall k :: 0 <= k < |chunks| ==> ds[k] == MeshDraw(mesh, subMeshIndex, material, chunks[k], castShadows)
  {
    if chunks != [] {
      ChunkDrawsEach(mesh, subMeshIndex, material, chunks[1..], castShadows);
    }
  }

  predicate Drawable(b: Batch) {
    b.mesh.Some? && b.material.Some?
  }

  /** The draw calls of a LOD's batches over one bucket: batches without a mesh or a
      material are skipped, the others draw the bucket in chunks. */
  function BatchDraws(batches: seq<Batch>, bucket: seq<Matrix>, castShadows: bool): seq<DrawCall> {
    if batches == [] then []
    else
      var b := batches[0];
      (if Drawable(b) then ChunkDraws(b.mesh.value, b.subMeshIndex, b.material.value, Chunks(bucket), castShadows) else [])
      + BatchDraws(batches[1..], bucket, castShadows)
  }

  /** The draw calls of LOD `l`: none when its bucket is empty or it is the billboard
      LOD; otherwise its batches, casting shadows for LODs 0 and 1 only. */
  function LodDraws(lodBatches: seq<seq<Batch>>, buckets: seq<seq<Matrix>>, hasBillboard: bool, l: nat): seq<DrawCall>
    requires l < |lodBatches| == |buckets|
  {
    if buckets[l] == [] || (hasBillboard && l == |lodBatches| - 1) then []
    else BatchDraws(lodBatches[l], buckets[l], l <= 1)
  }

  /** The draw calls of LODs `l` and up, in order. */
  function LodsDrawsFrom(lodBatches: seq<seq<Batch>>, buckets: seq<seq<Matrix>>, hasBillboard: bool, l: nat): seq<DrawCall>
    requires |lodBatches| == |buckets|
    decreases |lodBatches| - l
  {
    if l >= |lodBatches| then []
    else LodDraws(lodBatches, buckets, hasBillboard, l) + LodsDrawsFrom(lodBatches, buckets, hasBillboard, l + 1)
  }

  function Billboards(ms: seq<Matrix>): (bs: seq<BillboardInstance>)
    ensures |bs| == |ms|
  {
    if ms == [] then [] else [BillboardInstance(ms[0].position, ms[0].scale)] + Billboards(ms[1..])
  }

  /** One billboard draw call per chunk of the billboard LOD's bucket. */
  function BillboardDraws(material: MaterialRef, chunks: seq<seq<Matrix>>): seq<DrawCall> {
    if chunks == [] then []
    else [BillboardDraw(material, Billboards(chunks[0]))] + BillboardDraws(material, chunks[1..])
  }

  /** Whether `RenderTrees` draws billboards: the tree has a billboard and a billboard
      material, the quad mesh exists and the last bucket is not empty. */
  predicate DrawsBillboards(buckets: seq<seq<Matrix>>, hasBillboard: bool, billboardMaterial: Option<MaterialRef>, quadReady: bool) {
    hasBillboard && |buckets| > 0 && buckets[|buckets| - 1] != [] && billboardMaterial.Some? && quadReady
  }

  /** Everything `RenderTrees` draws for one tree, given its buckets. */
  function RenderDraws(lodBatches: seq<seq<Batch>>, buckets: seq<seq<Matrix>>, hasBillboard: bool, billboardMaterial: Option<MaterialRef>, quadReady: bool): seq<DrawCall>
    requires |lodBatches| == |buckets|
  {
    LodsDrawsFrom(lodBatches, buckets, hasBillboard, 0)
    + if DrawsBillboards(buckets, hasBillboard, billboardMaterial, quadReady)
      then BillboardDraws(billboardMaterial.value, Chunks(buckets[|buckets| - 1]))
      else []
  }

  lemma AllSizedConcat(a: seq<DrawCall>, b: seq<DrawCall>)
    requires AllSized(a) && AllSized(b)
    ensures AllSized(a + b)
  {
    forall k | 0 <= k < |a + b| ensures 1 <= InstanceCount((a + b)[k]) <= MaxBatch {
      if k >= |a| {
        assert (a + b)[k] == b[k - |a|];
      }
    }
  }

  lemma ChunksSized(ms: seq<Matrix>)
    ensures AllChunksSized(Chunks(ms))
  {
    ChunksCover(ms, 0);
  }

  lemma {:induction false} ChunkDrawsSized(mesh: MeshRef, subMeshIndex: int, material: MaterialRef, chunks: seq<seq<Matrix>>, castShadows: bool)
    requires AllChunksSized(chunks)
    ensures AllSized(ChunkDraws(mesh, subMeshIndex, material, chunks, castShadows))
  {
    ChunkDrawsEach(mesh, subMeshIndex, material, chunks, castShadows);
  }

  lemma {:induction false} BatchDrawsSized(batches: seq<Batch>, bucket: seq<Matrix>, castShadows: bool)
    ensures AllSized(BatchDraws(batches, bucket, castShadows))
  {
    if batches != [] {
      var b := batches[0];
      BatchDrawsSized(batches[1..], bucket, castShadows);
      if Drawable(b) {
        ChunksSized(bucket);
        ChunkDrawsSized(b.mesh.value, b.subMeshIndex, b.material.value, Chunks(bucket), castShadows);
        AllSizedConcat(ChunkDraws(b.mesh.value, b.subMeshIndex, b.material.value, Chunks(bucket), castShadows), BatchDraws(batches[1..], bucket, castShadows));
      }
    }
  }

  lemma {:induction false} LodsDrawsSized(lodBatches: seq<seq<Batch>>, buckets: seq<seq<Matrix>>, hasBillboard: bool, l: nat)
    requires |lodBatches| == |buckets|
    ensures AllSized(LodsDrawsFrom(lodBatches, buckets, hasBillboard, l))
    decreases |lodBatches| - l
  {
    if l < |lodBatches| {
      LodsDrawsSized(lodBatches, buckets, hasBillboard, l + 1);
      BatchDrawsSized(lodBatches[l], buckets[l], l <= 1);
      AllSizedConcat(LodDraws(lodBatches, buckets, hasBillboard, l), LodsDrawsFrom(lodBatches, buckets, hasBillboard, l + 1));
    }
  }

  lemma {:induction false} BillboardDrawsEach(material: MaterialRef, chunks: seq<seq<Matrix>>)
    ensures var ds := BillboardDraws(material, chunks);
      |ds| == |chunks| && forall k :: 0 <= k < |chunks| ==> ds[k] == BillboardDraw(material, Billboards(chunks[k]))
  {
    if chunks != [] {
      BillboardDrawsEach(material, chunks[1..]);
    }
  }

  /** No draw call of a tree is empty or larger than `MaxBatch` instances. */
  lemma RenderDrawsSized(lodBatches: seq<seq<Batch>>, buckets: seq<seq<Matrix>>, hasBillboard: bool, billboardMaterial: Option<MaterialRef>, quadReady: bool)
    requires |lodBatches| == |buckets|
    ensures AllSized(RenderDraws(lodBatches, buckets, hasBillboard, billboardMaterial, quadReady))
  {
    LodsDrawsSized(lodBatches, buckets, hasBillboard, 0);
    if DrawsBillboards(buckets, hasBillboard, billboardMaterial, quadReady) {
      var chunks := Chunks(buckets[|buckets| - 1]);
      ChunksSized(buckets[|buckets| - 1]);
      BillboardDrawsEach(billboardMaterial.value, chunks);
      AllSizedConcat(LodsDrawsFrom(lodBatches, buckets, hasBillboard, 0), BillboardDraws(billboardMaterial.value, chunks));
    }
  }

  /** The instances of a batch's draw calls, laid end to end, are the whole bucket:
      every tree in the bucket is drawn once per drawable batch. */
  lemma ChunkDrawsCoverBucket(mesh: MeshRef, subMeshIndex: int, material: MaterialRef, bucket: seq<Matrix>, castShadows: bool)
    ensures var ds := ChunkDraws(mesh, subMeshIndex, material, Chunks(bucket), castShadows);
      && |ds| == |Chunks(bucket)|
      && (forall k :: 0 <= k < |ds| ==> ds[k].MeshDraw? && ds[k].instances == Chunks(bucket)[k])
      && Flatten(seq(|ds|, k requires 0 <= k < |ds| => ds[k].instances)) == bucket
  {
    var chunks := Chunks(bucket);
    var ds := ChunkDraws(mesh, subMeshIndex, material, chunks, castShadows);
    ChunkDrawsEach(mesh, subMeshIndex, material, chunks, castShadows);
    ChunksCover(bucket, 0);
    assert seq(|ds|, k requires 0 <= k < |ds| => ds[k].instances) == chunks;
  }
}
