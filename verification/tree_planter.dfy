/**
  `OGSTreePlanter` (Runtime/OGSTreePlanter.cs) as objects changed in place: the
  `TreeLODGroup` and `TreeInfo` records the planter fills, and the planter's
  `GetRandomTree`, `GetLodIndexForHeight`, `ExtractLODGroups`, `PlantTrees`,
  `RenderTrees` and `OnValidate`. Every method is proved against the rules of
  `TreeRules`. Engine work (instantiation, terrain, random numbers, the camera and
  the GPU) enters as parameters: a `Prefab` value, `Placement`s and a `Sight` function.
*/
module Trees {
  import opened Wrappers
  import opened Geometry
  import opened TreeRules

  /** `TreeInfo.treeScaleRange`'s default. */
  const DefaultScaleRange := Vec2(0.85, 1.25)

  /** `TreeInfo.cullScreenRelativeHeight`'s default. */
  const DefaultCullHeight := 0.01

  /** `OGSTreePlanter.maxRenderDistance`'s default. */
  const DefaultMaxRenderDistance := 300.0

  /** The fields of a tree that `OnValidate` resets. */
  datatype TreeTuning = TreeTuning(frequencyWeighting: int, treeScaleRange: Vec2, baseHeight: real, cullScreenRelativeHeight: real)

  const DefaultTuning := TreeTuning(1, DefaultScaleRange, 1.0, DefaultCullHeight)

  /** `TreeLODGroup`: the batches of one LOD and the matrices planted into it. */
  class TreeLodGroup {
    var batches: seq<Batch>
    var matrices: seq<Matrix>
    var lodStart: real
    var lodEnd: real

    constructor (lodStart: real, lodEnd: real)
      ensures this.lodStart == lodStart && this.lodEnd == lodEnd
      ensures batches == [] && matrices == []
    {
      this.lodStart := lodStart;
      this.lodEnd := lodEnd;
      batches := [];
      matrices := [];
    }
  }

  /** `TreeInfo`: a tree prefab with its weighting, scale range and extracted LODs. */
  class TreeInfo {
    var prefab: Option<Prefab>
    var frequencyWeighting: int
    var treeScaleRange: Vec2
    var lods: seq<TreeLodGroup>
    var baseHeight: real
    var cullScreenRelativeHeight: real
    var hasBillboard: bool
    var billboardAsset: Option<BillboardRef>
    var billboardMaterial: Option<MaterialRef>
    var initialized: bool

    /** A new entry with the field initialisers' values and the prefab the inspector assigns. */
    constructor (prefab: Option<Prefab>)
      ensures this.prefab == prefab && Tuning() == DefaultTuning && lods == []
      ensures Billboard() == BillboardInfo(false, None, None) && !initialized
    {
      this.prefab := prefab;
      frequencyWeighting := 1;
      treeScaleRange := DefaultScaleRange;
      lods := [];
      baseHeight := 1.0;
      cullScreenRelativeHeight := DefaultCullHeight;
      hasBillboard := false;
      billboardAsset := None;
      billboardMaterial := None;
      initialized := false;
    }

    function Tuning(): TreeTuning
      reads this
    {
      TreeTuning(frequencyWeighting, treeScaleRange, baseHeight, cullScreenRelativeHeight)
    }

    function Billboard(): BillboardInfo
      reads this
    {
      BillboardInfo(hasBillboard, billboardAsset, billboardMaterial)
    }
  }

  /** The weights of the trees, in list order. */
  function Weights(ts: seq<TreeInfo>): (ws: seq<int>)
    reads ts
    ensures |ws| == |ts|
    ensures forall i :: 0 <= i < |ts| ==> ws[i] == ts[i].frequencyWeighting
  {
    seq(|ts|, i requires 0 <= i < |ts| reads ts => ts[i].frequencyWeighting)
  }

  /** The transition heights of the LODs, in order. */
  function LodStarts(gs: seq<TreeLodGroup>): (starts: seq<real>)
    reads gs
    ensures |starts| == |gs|
    ensures forall i :: 0 <= i < |gs| ==> starts[i] == gs[i].lodStart
  {
    seq(|gs|, i requires 0 <= i < |gs| reads gs => gs[i].lodStart)
  }

  /** The batches of the LODs, in order. */
  function LodBatchesOf(gs: seq<TreeLodGroup>): (bs: seq<seq<Batch>>)
    reads gs
    ensures |bs| == |gs|
    ensures forall i :: 0 <= i < |gs| ==> bs[i] == gs[i].batches
  {
    seq(|gs|, i requires 0 <= i < |gs| reads gs => gs[i].batches)
  }

  /** Every LOD group of every tree. */
  function AllGroups(ts: seq<TreeInfo>): set<TreeLodGroup>
    reads ts
  {
    set a, b | 0 <= a < |ts| && 0 <= b < |ts[a].lods| :: ts[a].lods[b]
  }

  /** A group holds the LOD `spec`, with nothing planted yet. */
  predicate Holds(g: TreeLodGroup, spec: LodSpec)
    reads g
  {
    g.lodStart == spec.lodStart && g.lodEnd == spec.lodEnd && g.batches == spec.batches && g.matrices == []
  }

  predicate HoldsAll(gs: seq<TreeLodGroup>, specs: seq<LodSpec>)
    reads gs
  {
    |gs| == |specs| && forall k :: 0 <= k < |gs| ==> Holds(gs[k], specs[k])
  }

  lemma HoldsAllAppend(gs: seq<TreeLodGroup>, specs: seq<LodSpec>, g: TreeLodGroup, spec: LodSpec)
    requires HoldsAll(gs, specs) && Holds(g, spec)
    ensures HoldsAll(gs + [g], specs + [spec])
  {
    forall k | 0 <= k < |gs| + 1
      ensures Holds((gs + [g])[k], (specs + [spec])[k])
    {
      if k < |gs| {
        assert (gs + [g])[k] == gs[k] && (specs + [spec])[k] == specs[k];
      }
    }
  }

  /** The first LOD of each tree, none for a tree without LODs. */
  function FirstLods(ts: seq<TreeInfo>): (fs: seq<Option<TreeLodGroup>>)
    reads ts
    ensures |fs| == |ts|
    ensures forall i :: 0 <= i < |ts| ==> fs[i] == if ts[i].lods == [] then None else Some(ts[i].lods[0])
  {
    seq(|ts|, i requires 0 <= i < |ts| reads ts => if ts[i].lods == [] then None else Some(ts[i].lods[0]))
  }

  /** The scale range of each tree. */
  function ScaleRanges(ts: seq<TreeInfo>): (rs: seq<Vec2>)
    reads ts
    ensures |rs| == |ts|
    ensures forall i :: 0 <= i < |ts| ==> rs[i] == ts[i].treeScaleRange
  {
    seq(|ts|, i requires 0 <= i < |ts| reads ts => ts[i].treeScaleRange)
  }

  /** The matrices planting `ps` among the trees `ts` appends to group `g`. */
  function PlantedInto(ts: seq<TreeInfo>, g: TreeLodGroup, ps: seq<Placement>): seq<Matrix>
    requires |ts| > 0
    reads ts
  {
    Planted(Weights(ts), FirstLods(ts), ScaleRanges(ts), g, ps)
  }

  /** The LODs of tree `a` are among all groups. */
  lemma GroupsOfTree(ts: seq<TreeInfo>, a: nat)
    requires a < |ts|
    ensures forall b :: 0 <= b < |ts[a].lods| ==> ts[a].lods[b] in AllGroups(ts)
  {
  }

  /** Clears the matrices of the groups `gs`. */
  method ClearLods(gs: seq<TreeLodGroup>)
    modifies gs`matrices
    ensures forall b :: 0 <= b < |gs| ==> gs[b].matrices == []
  {
    for j := 0 to |gs|
      invariant forall b :: 0 <= b < j ==> gs[b].matrices == []
    {
      gs[j].matrices := [];
    }
  }

  /** The inline LOD loop of `RenderTrees`: the first LOD whose transition height the
      screen height reaches, else the last LOD. */
  method ChooseLod(starts: seq<real>, screenHeight: real) returns (l: nat)
    requires |starts| > 0
    ensures l == LodIndexForHeight(starts, screenHeight)
  {
    var found := false;
    l := 0;
    var i := 0;
    while i < |starts|
      invariant 0 <= i <= |starts|
      invariant FirstReached(starts, screenHeight, i) == LodIndexForHeight(starts, screenHeight)
    {
      if screenHeight >= starts[i] {
        l := i;
        found := true;
        break;
      }
      i := i + 1;
    }
    if !found {
      l := |starts| - 1;
    }
  }

  /** The draw calls of one batch over a bucket: one per chunk of at most `MaxBatch`. */
  method DrawChunks(mesh: MeshRef, subMeshIndex: int, material: MaterialRef, matrices: seq<Matrix>, castShadows: bool)
    returns (draws: seq<DrawCall>)
    ensures draws == ChunkDraws(mesh, subMeshIndex, material, Chunks(matrices), castShadows)
  {
    draws := [];
    var i := 0;
    while i < |matrices|
      invariant draws + ChunkDraws(mesh, subMeshIndex, material, ChunksFrom(matrices, i), castShadows)
        == ChunkDraws(mesh, subMeshIndex, material, Chunks(matrices), castShadows)
      decreases |matrices| - i
    {
      var batchCount := Min(MaxBatch, |matrices| - i);
      draws := draws + [MeshDraw(mesh, subMeshIndex, material, matrices[i..i + batchCount], castShadows)];
      i := i + MaxBatch;
    }
  }

  /** The draw calls of a LOD's batches over its bucket, skipping batches without a
      mesh or a material. */
  method DrawBatches(batches: seq<Batch>, matrices: seq<Matrix>, castShadows: bool) returns (draws: seq<DrawCall>)
    ensures draws == BatchDraws(batches, matrices, castShadows)
  {
    draws := [];
    for j := 0 to |batches|
      invariant draws + BatchDraws(batches[j..], matrices, castShadows) == BatchDraws(batches, matrices, castShadows)
    {
      var batch := batches[j];
      if batch.mesh.None? || batch.material.None? {
        BatchDrawsStep(batches, matrices, castShadows, j, draws, []);
        continue;
      }
      var more := DrawChunks(batch.mesh.value, batch.subMeshIndex, batch.material.value, matrices, castShadows);
      BatchDrawsStep(batches, matrices, castShadows, j, draws, more);
      draws := draws + more;
    }
  }

  lemma BatchDrawsStep(batches: seq<Batch>, matrices: seq<Matrix>, castShadows: bool, j: nat, draws: seq<DrawCall>, more: seq<DrawCall>)
    requires j < |batches|
    requires var b := batches[j];
      more == if Drawable(b) then ChunkDraws(b.mesh.value, b.subMeshIndex, b.material.value, Chunks(matrices), castShadows) else []
    ensures draws + more + BatchDraws(batches[j + 1..], matrices, castShadows) == draws + BatchDraws(batches[j..], matrices, castShadows)
  {
    assert batches[j..][1..] == batches[j + 1..];
    var rest := BatchDraws(batches[j + 1..], matrices, castShadows);
    assert draws + more + rest == draws + (more + rest);
  }

  /** The billboard draw calls: one per chunk of the billboard LOD's bucket, each
      billboard at its tree's position and height scale. */
  method DrawBillboards(material: MaterialRef, matrices: seq<Matrix>) returns (draws: seq<DrawCall>)
    ensures draws == BillboardDraws(material, Chunks(matrices))
  {
    draws := [];
    var i := 0;
    while i < |matrices|
      invariant draws + BillboardDraws(material, ChunksFrom(matrices, i)) == BillboardDraws(material, Chunks(matrices))
      decreases |matrices| - i
    {
      var batchCount := Min(MaxBatch, |matrices| - i);
      var billboards: seq<BillboardInstance> := [];
      for j := 0 to batchCount
        invariant |billboards| == j
        invariant forall k :: 0 <= k < j ==> billboards[k] == Billboards(matrices[i..i + batchCount])[k]
      {
        var treeMatrix := matrices[i + j];
        billboards := billboards + [BillboardInstance(treeMatrix.position, treeMatrix.scale)];
        BillboardsAt(matrices[i..i + batchCount], j);
      }
      assert billboards == Billboards(matrices[i..i + batchCount]);
      draws := draws + [BillboardDraw(material, billboards)];
      i := i + MaxBatch;
    }
  }

  lemma {:induction false} BillboardsAt(ms: seq<Matrix>, k: nat)
    requires k < |ms|
    ensures Billboards(ms)[k] == BillboardInstance(ms[k].position, ms[k].scale)
  {
    if k > 0 {
      BillboardsAt(ms[1..], k - 1);
    }
  }

  lemma LodsDrawsStep(lodBatches: seq<seq<Batch>>, buckets: seq<seq<Matrix>>, hasBillboard: bool, l: nat, draws: seq<DrawCall>, more: seq<DrawCall>)
    requires l < |lodBatches| == |buckets|
    requires more == LodDraws(lodBatches, buckets, hasBillboard, l)
    requires draws + LodsDrawsFrom(lodBatches, buckets, hasBillboard, l) == LodsDrawsFrom(lodBatches, buckets, hasBillboard, 0)
    ensures (draws + more) + LodsDrawsFrom(lodBatches, buckets, hasBillboard, l + 1) == LodsDrawsFrom(lodBatches, buckets, hasBillboard, 0)
  {
    var rest := LodsDrawsFrom(lodBatches, buckets, hasBillboard, l + 1);
    assert LodsDrawsFrom(lodBatches, buckets, hasBillboard, l) == more + rest;
    assert draws + more + rest == draws + (more + rest);
  }

  /** Appends the batches of one mesh's submeshes to `group`. */
  method AddSubmeshBatches(group: TreeLodGroup, source: MeshSource, materials: seq<Option<MaterialRef>>) returns (ok: bool)
    modifies group`batches
    ensures ok <==> SubmeshBatches(source.mesh, materials, source.subMeshCount).Success?
    ensures ok ==> group.batches == old(group.batches) + SubmeshBatches(source.mesh, materials, source.subMeshCount).value
    ensures !ok ==> group.batches == old(group.batches)
  {
    for subMesh := 0 to source.subMeshCount
      invariant SubmeshBatches(source.mesh, materials, subMesh).Success?
      invariant subMesh > 0 ==> |materials| > 0
      invariant group.batches == old(group.batches) + SubmeshBatches(source.mesh, materials, subMesh).value
    {
      if |materials| == 0 {
        SubmeshBatchesContent(source.mesh, materials, source.subMeshCount);
        assert group.batches == old(group.batches) + [];
        return false;
      }
      var mat := materials[Min(subMesh, |materials| - 1)];
      group.batches := group.batches + [Batch(Some(source.mesh), mat, subMesh)];
    }
    return true;
  }

  /** Adds one renderer's batches to `group`; a billboard renderer also records the
      tree's billboard. */
  method AddRendererBatches(info: TreeInfo, group: TreeLodGroup, r: RendererSource) returns (ok: bool)
    modifies info`hasBillboard, info`billboardAsset, info`billboardMaterial, group`batches
    ensures ok <==> RendererBatches(r).Success?
    ensures ok ==> group.batches == old(group.batches) + RendererBatches(r).value
    ensures ok ==> info.Billboard() == BillboardAfter([r], old(info.Billboard()))
    ensures !ok ==> group.batches == old(group.batches) && info.Billboard() == old(info.Billboard())
  {
    match r
    case BillboardRenderer(material, asset) =>
      group.batches := group.batches + [Batch(None, material, 0)];
      info.hasBillboard := true;
      info.billboardAsset := asset;
      info.billboardMaterial := material;
      return true;
    case MeshRenderer(None, _) =>
      return false;
    case MeshRenderer(Some(source), materials) =>
      ok := AddSubmeshBatches(group, source, materials);
  }

  /** Builds the group of LOD `i`. */
  method BuildLod(info: TreeInfo, sources: seq<LodSource>, i: nat) returns (group: TreeLodGroup, ok: bool)
    requires i < |sources|
    modifies info`hasBillboard, info`billboardAsset, info`billboardMaterial
    ensures fresh(group)
    ensures ok <==> LodBatches(sources[i].renderers).Success?
    ensures ok ==> Holds(group, LodSpec(sources[i].transitionHeight, LodEnd(sources, i), LodBatches(sources[i].renderers).value))
    ensures ok ==> info.Billboard() == BillboardAfter(sources[i].renderers, old(info.Billboard()))
    ensures !ok ==> var rs := sources[i].renderers;
      info.Billboard() == BillboardAfter(rs[..FailingRenderer(rs)], old(info.Billboard()))
  {
    group := new TreeLodGroup(sources[i].transitionHeight, LodEnd(sources, i));
    var renderers := sources[i].renderers;
    for j := 0 to |renderers|
      invariant LodBatches(renderers[..j]) == Success(group.batches)
      invariant FailingRendererFrom(renderers, j) == FailingRenderer(renderers)
      invariant info.Billboard() == BillboardAfter(renderers[..j], old(info.Billboard()))
      invariant fresh(group)
      invariant group.matrices == [] && group.lodStart == sources[i].transitionHeight && group.lodEnd == LodEnd(sources, i)
    {
      assert renderers[..j + 1][..j] == renderers[..j];
      ok := AddRendererBatches(info, group, renderers[j]);
      if !ok {
        LodBatchesPrefixFailure(renderers, j + 1);
        return;
      }
    }
    assert renderers[..|renderers|] == renderers;
    ok := true;
  }

  /** `OGSTreePlanter`: the trees to plant and the state `RenderTrees` reuses. */
  class TreePlanter {
    var trees: seq<TreeInfo>
    var maxRenderDistance: real
    var lodBuckets: seq<seq<Matrix>>

    constructor ()
      ensures trees == [] && maxRenderDistance == DefaultMaxRenderDistance && lodBuckets == []
    {
      trees := [];
      maxRenderDistance := DefaultMaxRenderDistance;
      lodBuckets := [];
    }

    /** `GetRandomTree`: the weighted pick of `TreeRules.Pick`, computed with a running
        sum. */
    method GetRandomTree(randomValue: real) returns (tree: TreeInfo)
      requires |trees| > 0
      ensures tree == trees[Pick(Weights(trees), randomValue)]
    {
      ghost var ws := Weights(trees);
      var totalWeight := 0;
      for i := 0 to |trees|
        invariant totalWeight == PrefixWeight(ws, i)
      {
        totalWeight := totalWeight + trees[i].frequencyWeighting;
      }
      assert totalWeight == TotalWeight(ws);
      var r := randomValue * totalWeight as real;
      assert r == Target(ws, randomValue);
      var accumulated := 0;
      for i := 0 to |trees|
        invariant accumulated == PrefixWeight(ws, i)
        invariant i < |trees| ==> PickFrom(ws, r, 0) == PickFrom(ws, r, i)
        invariant i == |trees| ==> PickFrom(ws, r, 0) == |trees| - 1
      {
        accumulated := accumulated + trees[i].frequencyWeighting;
        assert accumulated == RunningSum(ws, i);
        if r < accumulated as real {
          return trees[i];
        }
      }
      return trees[|trees| - 1];
    }

    /** `GetLodIndexForHeight`: the LOD `TreeRules.LodIndexForHeight` picks from the
        tree's transition heights. */
    function GetLodIndexForHeight(info: TreeInfo, screenHeight: real): (l: int)
      reads info, info.lods
      ensures -1 <= l < |info.lods|
      ensures l == -1 <==> info.lods == []
    {
      LodIndexForHeight(LodStarts(info.lods), screenHeight)
    }

    /** The LOD loop of `ExtractLODGroups`: one fresh group per LOD of the prefab's LOD
        group, in order, and the billboard its renderers name. */
    method ExtractLods(info: TreeInfo, sources: seq<LodSource>) returns (ok: bool)
      modifies info`lods, info`hasBillboard, info`billboardAsset, info`billboardMaterial
      ensures ok <==> LodTable(sources).Success?
      ensures ok ==> HoldsAll(info.lods, LodTable(sources).value)
      ensures ok ==> info.Billboard() == BillboardAfterLods(sources, old(info.Billboard()))
      ensures !ok ==> FailingLod(sources) < |sources|
      ensures !ok ==> HoldsAll(info.lods, LodTable(sources[..FailingLod(sources)]).value)
      ensures !ok ==> info.Billboard() == BillboardAtFailure(sources, old(info.Billboard()))
      ensures forall k :: 0 <= k < |info.lods| ==> fresh(info.lods[k])
      ensures forall a, b :: 0 <= a < b < |info.lods| ==> info.lods[a] != info.lods[b]
    {
      info.lods := [];
      for i := 0 to |sources|
        invariant LodTable(sources[..i]).Success? && HoldsAll(info.lods, LodTable(sources[..i]).value)
        invariant FailingLodFrom(sources, i) == FailingLod(sources)
        invariant forall k :: 0 <= k < |info.lods| ==> fresh(info.lods[k])
        invariant forall a, b :: 0 <= a < b < |info.lods| ==> info.lods[a] != info.lods[b]
        invariant info.Billboard() == BillboardAfterLods(sources[..i], old(info.Billboard()))
      {
        assert sources[..i + 1][..i] == sources[..i];
        assert LodEnd(sources[..i + 1], i) == LodEnd(sources, i);
        ghost var before := LodTable(sources[..i]).value;
        var group, built := BuildLod(info, sources, i);
        if !built {
          LodTablePrefixFailure(sources, i + 1);
          return false;
        }
        ghost var spec := LodSpec(sources[i].transitionHeight, LodEnd(sources, i), LodBatches(sources[i].renderers).value);
        assert LodTable(sources[..i + 1]) == Success(before + [spec]);
        assert BillboardAfterLods(sources[..i + 1], old(info.Billboard()))
          == BillboardAfter(sources[i].renderers, BillboardAfterLods(sources[..i], old(info.Billboard())));
        HoldsAllAppend(info.lods, before, group, spec);
        forall k | 0 <= k < |info.lods|
          ensures info.lods[k] != group
        {
        }
        info.lods := info.lods + [group];
      }
      assert sources[..|sources|] == sources;
      return true;
    }

    /** `ExtractLODGroups`: the tree's base height, LOD table, cull height and billboard
        read off its prefab. `ok` is false where the source throws: a mesh renderer
        without a mesh, or a mesh with submeshes and no materials; the state is then the
        one the throw leaves behind (the LODs built so far, the billboard fields the
        renderers before the throw set, the cull height untouched). */
    method ExtractLODGroups(info: TreeInfo?) returns (ok: bool)
      modifies info
      ensures info == null ==> ok
      ensures info != null && old(info.prefab).None? ==> ok && unchanged(info)
      ensures info != null && old(info.prefab).Some? ==>
        var p := old(info.prefab).value;
        && info.prefab == old(info.prefab) && info.baseHeight == BaseHeight(p)
        && info.frequencyWeighting == old(info.frequencyWeighting) && info.treeScaleRange == old(info.treeScaleRange)
        && info.initialized == old(info.initialized)
        && (p.lodGroup.None? ==>
              (ok && info.lods == old(info.lods)
               && info.cullScreenRelativeHeight == old(info.cullScreenRelativeHeight)
               && info.Billboard() == old(info.Billboard())))
        && (p.lodGroup.Some? ==>
              var sources := p.lodGroup.value;
              && (ok <==> LodTable(sources).Success?)
              && (ok ==> HoldsAll(info.lods, LodTable(sources).value))
              && (forall k :: 0 <= k < |info.lods| ==> fresh(info.lods[k]))
              && (forall a, b :: 0 <= a < b < |info.lods| ==> info.lods[a] != info.lods[b])
              && (ok && sources == [] ==> info.cullScreenRelativeHeight == old(info.cullScreenRelativeHeight))
              && (ok && sources != [] ==> info.cullScreenRelativeHeight == sources[|sources| - 1].transitionHeight)
              && (ok ==> info.Billboard() == BillboardAfterLods(sources, old(info.Billboard())))
              && (!ok ==>
                    && FailingLod(sources) < |sources|
                    && HoldsAll(info.lods, LodTable(sources[..FailingLod(sources)]).value)
                    && info.cullScreenRelativeHeight == old(info.cullScreenRelativeHeight)
                    && info.Billboard() == BillboardAtFailure(sources, old(info.Billboard()))))
    {
      if info == null || info.prefab.None? {
        return true;
      }
      var p := info.prefab.value;
      info.baseHeight := BaseHeight(p);
      if p.lodGroup.None? {
        return true;
      }
      var sources := p.lodGroup.value;
      ok := ExtractLods(info, sources);
      if !ok {
        return;
      }
      if |sources| > 0 {
        info.cullScreenRelativeHeight := sources[|sources| - 1].transitionHeight;
      }
    }

    /** The clearing loop of `PlantTrees`: every LOD of every tree loses its matrices. */
    method ClearMatrices()
      modifies AllGroups(trees)`matrices
      ensures AllGroups(trees) == old(AllGroups(trees))
      ensures forall g :: g in AllGroups(trees) ==> g.matrices == []
    {
      for i := 0 to |trees|
        invariant forall a, b :: 0 <= a < i && 0 <= b < |trees[a].lods| ==> trees[a].lods[b].matrices == []
      {
        GroupsOfTree(trees, i);
        ClearLods(trees[i].lods);
      }
    }

    /** One placement of `PlantTrees`: its matrix goes to the first LOD of the tree it
        picks, when that tree has a LOD. The ghost parameters are the planting
        inputs of the trees, which planting leaves as they are. */
    method PlantOne(p: Placement, ghost ws: seq<int>, ghost firsts: seq<Option<TreeLodGroup>>, ghost ranges: seq<Vec2>)
      requires |trees| > 0
      requires ws == Weights(trees) && firsts == FirstLods(trees) && ranges == ScaleRanges(trees)
      modifies AllGroups(trees)`matrices
      ensures ws == Weights(trees) && firsts == FirstLods(trees) && ranges == ScaleRanges(trees)
      ensures AllGroups(trees) == old(AllGroups(trees))
      ensures forall g :: g in AllGroups(trees) ==>
        var c := Pick(ws, p.pickValue);
        g.matrices == old(g.matrices) + if firsts[c] == Some(g) then [PlacementMatrix(ranges[c], p)] else []
    {
      var tree := GetRandomTree(p.pickValue);
      var mtx := PlacementMatrix(tree.treeScaleRange, p);
      ghost var c := Pick(ws, p.pickValue);
      assert tree == trees[c] && mtx == PlacementMatrix(ranges[c], p);
      assert firsts[c] == if tree.lods == [] then None else Some(tree.lods[0]);
      if |tree.lods| > 0 {
        var first := tree.lods[0];
        GroupsOfTree(trees, c);
        first.matrices := first.matrices + [mtx];
      }
    }

    /** The planting loop of `PlantTrees`, over every placement in order. */
    method PlantPlacements(placements: seq<Placement>)
      requires |trees| > 0
      modifies AllGroups(trees)`matrices
      ensures AllGroups(trees) == old(AllGroups(trees))
      ensures forall g :: g in AllGroups(trees) ==> g.matrices == old(g.matrices) + PlantedInto(trees, g, placements)
    {
      ghost var ws, firsts, ranges := Weights(trees), FirstLods(trees), ScaleRanges(trees);
      ghost var gs := AllGroups(trees);
      for k := 0 to |placements|
        invariant ws == Weights(trees) && firsts == FirstLods(trees) && ranges == ScaleRanges(trees)
        invariant gs == AllGroups(trees)
        invariant forall g :: g in gs ==> g.matrices == old(g.matrices) + Planted(ws, firsts, ranges, g, placements[..k])
      {
        label before:
        PlantOne(placements[k], ws, firsts, ranges);
        forall g | g in gs
          ensures g.matrices == old(g.matrices) + Planted(ws, firsts, ranges, g, placements[..k + 1])
        {
          PlantedStep(ws, firsts, ranges, g, placements, k, old(g.matrices), old@before(g.matrices), g.matrices);
        }
      }
      assert placements[..|placements|] == placements;
    }

    /** `PlantTrees`: clears every LOD's matrices, then appends each placement's matrix
        to the first LOD of the tree it picks, when that tree has a LOD. `ok` is false
        where the source throws: a placement with no trees to pick from, or (in its
        closing report) a tree without LODs. */
    method PlantTrees(placements: seq<Placement>) returns (ok: bool)
      modifies AllGroups(trees)`matrices
      ensures ok <==> (|trees| > 0 || placements == []) && forall a :: 0 <= a < |trees| ==> |trees[a].lods| > 0
      ensures |trees| > 0 ==> forall g :: g in AllGroups(trees) ==> g.matrices == PlantedInto(trees, g, placements)
    {
      ClearMatrices();
      if |trees| == 0 {
        return placements == [];
      }
      PlantPlacements(placements);
      ok := AllHaveLods();
    }

    /** The closing report of `PlantTrees`, which reads the first LOD of every tree:
        true when every tree has one. */
    method AllHaveLods() returns (ok: bool)
      ensures ok <==> forall a :: 0 <= a < |trees| ==> |trees[a].lods| > 0
    {
      for i := 0 to |trees|
        invariant forall a :: 0 <= a < i ==> |trees[a].lods| > 0
      {
        if |trees[i].lods| == 0 {
          return false;
        }
      }
      return true;
    }

    /** Sorts the first LOD's matrices into one bucket per LOD (or drops them), the
        `lodBuckets` filling of `RenderTrees`. */
    method FillBuckets(info: TreeInfo, sight: Matrix -> Sight)
      requires |info.lods| > 0
      modifies this
      ensures trees == old(trees) && maxRenderDistance == old(maxRenderDistance)
      ensures lodBuckets == BucketsOf(LodStarts(info.lods), info.cullScreenRelativeHeight, maxRenderDistance, info.lods[0].matrices, sight)
    {
      var starts := LodStarts(info.lods);
      var source := info.lods[0].matrices;
      var none: seq<Matrix> := [];
      lodBuckets := seq(|info.lods|, _ => none);
      for k := 0 to |source|
        invariant trees == old(trees) && maxRenderDistance == old(maxRenderDistance)
        invariant lodBuckets == BucketsOf(starts, info.cullScreenRelativeHeight, maxRenderDistance, source[..k], sight)
      {
        var mtx := source[k];
        var s := sight(mtx);
        assert source[..k + 1][..k] == source[..k];
        if s.distance > maxRenderDistance {
          continue;
        }
        if s.screenHeight < info.cullScreenRelativeHeight {
          continue;
        }
        var l := ChooseLod(starts, s.screenHeight);
        lodBuckets := lodBuckets[l := lodBuckets[l] + [mtx]];
      }
      assert source[..|source|] == source;
    }

    /** The mesh draw calls of LOD `l` over its bucket: none for an empty bucket or
        the billboard LOD; shadows only for LOD 0 and LOD 1. */
    method DrawLod(info: TreeInfo, buckets: seq<seq<Matrix>>, l: nat, ghost lodBatches: seq<seq<Batch>>) returns (draws: seq<DrawCall>)
      requires l < |buckets| == |info.lods|
      requires lodBatches == LodBatchesOf(info.lods)
      ensures draws == LodDraws(lodBatches, buckets, info.hasBillboard, l)
    {
      var group := info.lods[l];
      var matrices := buckets[l];
      if |matrices| == 0 {
        return [];
      }
      var isBillboardLod := info.hasBillboard && l == |info.lods| - 1;
      draws := [];
      if !isBillboardLod {
        draws := DrawBatches(group.batches, matrices, l <= 1);
      }
    }

    /** The mesh draw calls of every LOD but the billboard LOD, over the buckets. */
    method DrawLods(info: TreeInfo, buckets: seq<seq<Matrix>>) returns (draws: seq<DrawCall>)
      requires |buckets| == |info.lods|
      ensures draws == LodsDrawsFrom(LodBatchesOf(info.lods), buckets, info.hasBillboard, 0)
    {
      ghost var lodBatches := LodBatchesOf(info.lods);
      draws := [];
      for l := 0 to |info.lods|
        invariant lodBatches == LodBatchesOf(info.lods)
        invariant draws + LodsDrawsFrom(lodBatches, buckets, info.hasBillboard, l)
          == LodsDrawsFrom(lodBatches, buckets, info.hasBillboard, 0)
      {
        var more := DrawLod(info, buckets, l, lodBatches);
        LodsDrawsStep(lodBatches, buckets, info.hasBillboard, l, draws, more);
        draws := draws + more;
      }
    }

    /** `RenderTrees` for one tree seen through `sight`: fills `lodBuckets` and returns
        the instanced draw calls, mesh LODs first and billboards last. `quadReady` says
        whether the shared billboard quad mesh exists. */
    method RenderTrees(info: TreeInfo?, sight: Matrix -> Sight, quadReady: bool) returns (draws: seq<DrawCall>)
      modifies this
      ensures trees == old(trees) && maxRenderDistance == old(maxRenderDistance)
      ensures info == null || info.lods == [] || info.lods[0].matrices == [] ==>
        draws == [] && lodBuckets == old(lodBuckets)
      ensures info != null && info.lods != [] && info.lods[0].matrices != [] ==>
        && lodBuckets == BucketsOf(LodStarts(info.lods), info.cullScreenRelativeHeight, maxRenderDistance, info.lods[0].matrices, sight)
        && draws == RenderDraws(LodBatchesOf(info.lods), lodBuckets, info.hasBillboard, info.billboardMaterial, quadReady)
    {
      if info == null || |info.lods| == 0 || |info.lods[0].matrices| == 0 {
        return [];
      }
      FillBuckets(info, sight);
      draws := DrawLods(info, lodBuckets);
      if info.hasBillboard && |info.lods| > 0 {
        var l := |info.lods| - 1;
        var matrices := lodBuckets[l];
        if |matrices| > 0 && info.billboardMaterial.Some? && quadReady {
          var billboards := DrawBillboards(info.billboardMaterial.value, matrices);
          draws := draws + billboards;
        }
      }
    }

    /** `OnValidate`: trees not yet initialised get the default tuning and are marked
        initialised; initialised trees keep theirs. A second call therefore changes
        nothing. */
    method OnValidate()
      modifies trees`frequencyWeighting, trees`treeScaleRange, trees`baseHeight, trees`cullScreenRelativeHeight, trees`initialized
      ensures forall t :: t in trees ==> t.initialized
      ensures forall t :: t in trees && old(t.initialized) ==> t.Tuning() == old(t.Tuning())
      ensures forall t :: t in trees && !old(t.initialized) ==> t.Tuning() == DefaultTuning
    {
      for i := 0 to |trees|
        invariant forall t :: t in trees[..i] ==> t.initialized
        invariant forall t :: t in trees && old(t.initialized) ==> t.Tuning() == old(t.Tuning()) && t.initialized
        invariant forall t :: t in trees[..i] && !old(t.initialized) ==> t.Tuning() == DefaultTuning
        invariant forall t :: t in trees && t !in trees[..i] ==> t.Tuning() == old(t.Tuning()) && t.initialized == old(t.initialized)
      {
        var tree := trees[i];
        assert trees[..i + 1] == trees[..i] + [tree];
        if !tree.initialized {
          tree.frequencyWeighting := 1;
          tree.treeScaleRange := DefaultScaleRange;
          tree.baseHeight := 1.0;
          tree.cullScreenRelativeHeight := DefaultCullHeight;
          tree.initialized := true;
        }
      }
      assert trees[..|trees|] == trees;
    }
  }
}
