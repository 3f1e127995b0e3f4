# OpenGolfSim course tooling: a verified model

OpenGolfSim is a golf simulator built on Unity. Its course tooling:

- imports terrain meshes from Wavefront OBJ files, one mesh per `o`/`g` segment;
- groups those files into imports by file-name prefix and gives each group a default surface material;
- keeps per-course hole settings;
- scatters instanced trees over the terrain and draws them with level-of-detail (LOD) selection.

This project models five parts of the tooling in Dafny and proves what each part promises:

- **The OBJ importer** (`ImportOBJ`).
  - Modules `ObjLines` and `ObjImport`.
  - The importer's locals become the fields of the class `ObjImport.Importer`. Its methods change them line by line.
  - Each method is proved against a pure specification:
    - `Step` and `Run` for lines;
    - `AddFace` and `ResolveAll` for faces;
    - `Commit` for `CommitCurrentMesh`.
  - Lemmas about those functions give the import's properties:
    - the import invariant holds after every line;
    - no triangle index is lost or invented;
    - the first error aborts;
    - faces are triangulated as a reversed fan.
- **The tree planter** (`OGSTreePlanter`).
  - Module `TreeRules` holds the pure rules: weighted random choice, LOD selection, culling into buckets, chunks of at most 1023 instances, the LOD table, planting and the draw calls.
  - Module `Trees` holds the classes `TreeInfo`, `TreeLodGroup` and `TreePlanter`. Their methods update matrices, LOD groups and buckets in place.
- **The import window's grouping** (`ScanAndGroupObjFiles`).
  - Module `ImportWindow`.
  - The dictionary of groups and the list of groups it produces are proved to partition the files by prefix, in first-seen order.
  - Each group gets the material of the first keyword its prefix contains.
- **The two course components** (`OGSCourseData` and `OGSCourse`).
  - Modules `CourseData` and `Course`, with the shared rules in `CourseRules`.
  - Holes are objects edited in place. `OnValidate` renames them by position and clamps the snap distance.
  - The model proves the resulting names distinct, and proves that validating twice changes nothing more.

Supporting modules:

- `Wrappers`: `Option` and `Result`.
- `Geometry`: vectors, colours and matrices as real-valued records.
- `Strings`: the .NET string operations the code uses.

What `ImportOBJ` does with a file, as the model states it:

- A `v` or `vn` line negates z.
- Every face corner becomes a fresh, unshared vertex.
- A segment without triangles is skipped, and no error is raised for it.
- Malformed numbers, missing fields and out-of-range indices are three distinct error kinds: `FormatError`, `FieldMissing` and `IndexOutOfRange`.
- A face is fanned as `(i, i-1, 0)` for `i` from the last corner down, so `f 1 2 3 4` gives `(4,3,1), (3,2,1)`.

## Model

| member | source | states |
|---|---|---|
| Strings.NatToString | Editor/OpenGolfSimOBJImport.cs:81 | the decimal form of a counter is a non-empty string of digits with no leading zero |
| Strings.NatToStringRoundTrip | Editor/OpenGolfSimOBJImport.cs:81 | reading the printed digits back gives the number, so a generated name encodes its counter |
| Strings.NatToStringInjective | Runtime/OGSCourseData.cs:85 | different numbers print differently |
| Strings.StartsWith | Editor/OpenGolfSimOBJImport.cs:75-119 | the keyword test of a line: the prefix is at most as long as the line and equals its first characters; `SplitFirstPiece` and `GroupPrefixRule` state prefixes through it |
| Strings.Contains | Editor/OpenGolfSimImportWindow.cs:149-165 | `prefix.Contains(keyword)`: the keyword occurs at some position; `ContainsAt` gives it as an offset |
| Strings.Trim | Editor/OpenGolfSimOBJImport.cs:79 | white space removed from both ends; `TrimRules` states what is kept |
| Strings.Split | Editor/OpenGolfSimOBJImport.cs:121 | never an empty list of pieces; `SplitJoin`, `SplitPiecesFree` and `SplitFirstPiece` state that the pieces are the text between separators |
| Strings.ContainsAt | Editor/OpenGolfSimImportWindow.cs:149-165 | `Contains` holds exactly when the keyword occurs at some offset of the prefix |
| Strings.TrimRules | Editor/OpenGolfSimOBJImport.cs:79 | `Trim` keeps exactly the slice between the leading and the trailing white space; the result neither starts nor ends with white space |
| Strings.SplitPiecesFree | Editor/OpenGolfSimOBJImport.cs:132 | no piece of a split contains the separator |
| Strings.SplitJoin | Editor/OpenGolfSimOBJImport.cs:121 | joining the pieces with the separator gives back the original string, so splitting loses nothing |
| Strings.SplitWithoutSeparator | Editor/OpenGolfSimImportWindow.cs:141-142 | a name without `_` splits into itself alone |
| Strings.SplitFirstPiece | Editor/OpenGolfSimImportWindow.cs:141-142 | there is more than one piece exactly when the separator occurs; the first piece is the text before the first separator |
| Strings.SplitNonEmpty | Editor/OpenGolfSimOBJImport.cs:85 | with empty entries removed, no piece is empty |
| Strings.ToLower | Editor/OpenGolfSimImportWindow.cs:140 | same length; every upper-case ASCII letter is lowered and every other character kept |
| ObjLines.RgbColor | Editor/OpenGolfSimOBJImport.cs:90-104 | alpha is 1; components all at most 1 are kept; if any exceeds 1, all three are divided by 255, so 0..255 input maps into 0..1 |
| ObjLines.VertexLine | Editor/OpenGolfSimOBJImport.cs:83-104 | a `v` line succeeds exactly when its three coordinates (and, with seven or more fields, its three colour components) parse; the position has z negated; the colour is white without colour fields |
| ObjLines.NormalLine | Editor/OpenGolfSimOBJImport.cs:106-113 | a `vn` line succeeds exactly when its three fields parse; the normal has z negated |
| ObjLines.UvLine | Editor/OpenGolfSimOBJImport.cs:114-118 | a `vt` line succeeds exactly when its two fields parse; the uv is taken as written |
| ObjLines.Lookup | Editor/OpenGolfSimOBJImport.cs:133-134 | a one-based index succeeds exactly when it is between 1 and the table size and yields entry n-1; otherwise it fails with `IndexOutOfRange` |
| ObjLines.ParseIndex | Editor/OpenGolfSimOBJImport.cs:133 | `int.Parse` of an index component: its value, or `FormatError` of the component when it does not parse |
| ObjLines.OptionalLookup | Editor/OpenGolfSimOBJImport.cs:138-156 | a uv or normal component: looked up when present and non-empty, the default otherwise; `ResolveCornerRules` states its outcomes |
| ObjLines.ResolveCorner | Editor/OpenGolfSimOBJImport.cs:132-156 | one corner resolved in the order the code reads it: position, colour, uv, normal; `ResolveCornerRules` states when and how it fails |
| ObjLines.ResolveCornerRules | Editor/OpenGolfSimOBJImport.cs:132-156 | a corner resolves exactly when its position index parses and is in range of both the positions and the colours and its uv and normal components are absent or parse to indices in range; the first failing component gives `FormatError` when unparsable and `IndexOutOfRange` when out of range, in the order position, colour, uv, normal; position and colour come from the same slot; an absent uv is `Vector2.zero` and an absent normal `Vector3.up` |
| ObjLines.FanOrder | Editor/OpenGolfSimOBJImport.cs:126-131 | a face with n corners gives 3(n-2) triangle slots (none under three), each naming an existing corner |
| ObjLines.FanOrderTriangle | Editor/OpenGolfSimOBJImport.cs:126-131 | triangle t of the fan is corners (n-1-t, n-2-t, 0) |
| ObjLines.FanOrderPrefix | Editor/OpenGolfSimOBJImport.cs:126-131 | the fan grows one triangle (i, i-1, 0) per loop iteration as i counts down |
| ObjLines.ResolveAll | Editor/OpenGolfSimOBJImport.cs:129-157 | a resolved face has exactly one corner per slot |
| ObjLines.ResolveAllCorner | Editor/OpenGolfSimOBJImport.cs:132-156 | slot k holds what resolving the k-th named token gives |
| ObjLines.ResolveAllFailure | Editor/OpenGolfSimOBJImport.cs:132-156 | a face that fails has failed on one of its corners, with that corner's error |
| ObjLines.ResolveAllConcat | Editor/OpenGolfSimOBJImport.cs:126-157 | resolving two runs of slots resolves the first, then the second; the first failure wins |
| ObjLines.ChainThen | Editor/OpenGolfSimOBJImport.cs:129-157 | resolving a further corner after two chained runs is the same as extending the second run |
| ObjLines.ResolveAllChain | Editor/OpenGolfSimOBJImport.cs:126-157 | resolution of a concatenated order is the chain of the two resolutions |
| ObjLines.ResolveAllSnoc | Editor/OpenGolfSimOBJImport.cs:129-157 | one more slot adds that corner's result after the earlier ones |
| ObjLines.ResolveAllExtend | Editor/OpenGolfSimOBJImport.cs:129-157 | after a successful prefix, the next corner's failure is the prefix's failure; its success extends the prefix by that corner |
| ObjLines.ResolveAllStep | Editor/OpenGolfSimOBJImport.cs:129-157 | one corner-by-corner step: the next corner either aborts the whole face with its error or extends the resolved prefix |
| ObjLines.ResolveAllPrefixFailure | Editor/OpenGolfSimOBJImport.cs:129-157 | a failing prefix decides the outcome of the whole face |
| ObjLines.Append | Editor/OpenGolfSimOBJImport.cs:134-156 | appending corners grows each buffer by exactly one entry per corner |
| ObjLines.Triangle | Editor/OpenGolfSimOBJImport.cs:129 | triangle i names corners i, i-1 and 0, in that order |
| ObjLines.TriangleCorners | Editor/OpenGolfSimOBJImport.cs:129-157 | a resolved triangle has exactly three corners |
| ObjLines.FanPrefixAll | Editor/OpenGolfSimOBJImport.cs:126-131 | the loop's final prefix is the whole fan |
| ObjLines.FanStep | Editor/OpenGolfSimOBJImport.cs:126-157 | one fan iteration: triangle (i, i-1, 0) either aborts the face with its error or extends the resolved prefix by its three corners |
| ObjLines.AppendSnoc | Editor/OpenGolfSimOBJImport.cs:134-156 | appending one more corner is adding it after the earlier ones |
| ObjLines.AppendKeeps | Editor/OpenGolfSimOBJImport.cs:134-156 | appending keeps every earlier entry of every buffer and keeps the buffers aligned |
| ObjLines.AppendConcat | Editor/OpenGolfSimOBJImport.cs:126-157 | appending two runs of corners is appending one after the other |
| ObjLines.AppendSlot | Editor/OpenGolfSimOBJImport.cs:134-135 | slot base+k holds the data of corner k, and its triangle index is base+k (no vertex is shared) |
| ObjLines.FaceCornerCount | Editor/OpenGolfSimOBJImport.cs:121-131 | a face line with n corners contributes 3(n-2) indices, none under three |
| ObjLines.AddFaceSize | Editor/OpenGolfSimOBJImport.cs:119-158 | a face keeps the segment aligned, keeps every earlier entry and adds exactly its triangle indices; a face with under three corners changes nothing |
| ObjLines.FanCornerSlot | Editor/OpenGolfSimOBJImport.cs:126-156 | slot base+i of the appended face holds the corner that fan slot i names |
| ObjLines.FanTriangleSlots | Editor/OpenGolfSimOBJImport.cs:126-156 | triangle k of the face occupies three consecutive fresh slots holding corners n-1-k, n-2-k and 0 |
| ObjLines.AddFace | Editor/OpenGolfSimOBJImport.cs:119-158 | a face with fewer than three corners leaves the segment alone; otherwise the reversed fan's corners are appended, or the first failing corner's error is returned; `AddFaceSize`, `FanCornerSlot` and `FanTriangleSlots` state its result |
| ObjImport.Commit | Editor/OpenGolfSimOBJImport.cs:38-69 | `CommitCurrentMesh` on the import state; `CommitRules` and `CommitKeepsIndices` state its effect |
| ObjImport.GroupStep | Editor/OpenGolfSimOBJImport.cs:76-82 | an `o`/`g` line keeps the tables, commits the segment and never lowers the name counter |
| ObjImport.VertexStep | Editor/OpenGolfSimOBJImport.cs:83-104 | a `v` line adds its position and colour to the tables; `StepTables` states that it adds exactly one of each |
| ObjImport.NormalStep | Editor/OpenGolfSimOBJImport.cs:106-113 | a `vn` line adds its normal; `StepTables` states it |
| ObjImport.UvStep | Editor/OpenGolfSimOBJImport.cs:114-118 | a `vt` line adds its uv; `StepTables` states it |
| ObjImport.FaceStep | Editor/OpenGolfSimOBJImport.cs:119-158 | an `f` line changes only the segment, as `AddFace` specifies |
| ObjImport.Step | Editor/OpenGolfSimOBJImport.cs:75-158 | one line dispatched on its keyword in the order `o `/`g `, `v `, `vn `, `vt `, `f `, other lines ignored; `StepWellFormed`, `StepOnlyAppends`, `StepTables` and `StepCounts` state its properties |
| ObjImport.Run | Editor/OpenGolfSimOBJImport.cs:71-160 | the lines read in order, the first failure aborting; `RunProperties` and `RunPrefixFailure` state its properties |
| ObjImport.Import | Editor/OpenGolfSimOBJImport.cs:14-166 | a missing file fails, otherwise all lines are read and the last segment committed; `ImportProperties` states its properties |
| ObjImport.CommitRules | Editor/OpenGolfSimOBJImport.cs:38-69 | a segment without triangles changes nothing; otherwise exactly one mesh is appended after the earlier ones, named after the segment and carrying its vertices, triangles, colours, uvs and normals; either way the buffers end empty, the tables, name and counter are untouched and the invariant holds |
| ObjImport.StepWellFormed | Editor/OpenGolfSimOBJImport.cs:74-158 | every successful line keeps the import invariant: aligned segment buffers, one colour per position, well-formed emitted meshes |
| ObjImport.StepOnlyAppends | Editor/OpenGolfSimOBJImport.cs:74-158 | a line never removes table entries or emitted meshes; it only appends |
| ObjImport.StepTables | Editor/OpenGolfSimOBJImport.cs:83-118 | a `v` line adds exactly one position and colour, a `vn` line one normal, a `vt` line one uv; every other line leaves the tables alone |
| ObjImport.GroupLineNaming | Editor/OpenGolfSimOBJImport.cs:76-82 | an `o`/`g` line always succeeds; it names the next segment after its trimmed rest, or a generated name from the counter when that is empty |
| ObjImport.FallbackNamesDistinct | Editor/OpenGolfSimOBJImport.cs:81 | generated segment names never repeat |
| ObjImport.CommitKeepsIndices | Editor/OpenGolfSimOBJImport.cs:38-69 | committing moves triangle indices from the segment to the output without losing any |
| ObjImport.StepCounts | Editor/OpenGolfSimOBJImport.cs:74-158 | a line adds exactly its own face's indices to the emitted-or-pending total |
| ObjImport.RunProperties | Editor/OpenGolfSimOBJImport.cs:74-160 | reading lines keeps the invariant and adds exactly the face indices of those lines |
| ObjImport.RunPrefixFailure | Editor/OpenGolfSimOBJImport.cs:74-160 | the first failing line decides the outcome of the whole file |
| ObjImport.ImportProperties | Editor/OpenGolfSimOBJImport.cs:14-166 | a successful import emits only well-formed meshes, whose triangle indices add up to those of the file's faces |
| ObjImport.Importer.constructor | Editor/OpenGolfSimOBJImport.cs:22-36 | empty tables, an empty segment, no meshes, the default name and a zero counter |
| ObjImport.Importer.CommitCurrentMesh | Editor/OpenGolfSimOBJImport.cs:38-69 | the locals afterwards are `Commit` of the locals before |
| ObjImport.Importer.PushCorner | Editor/OpenGolfSimOBJImport.cs:134-156 | one corner appends one entry to each segment buffer and nothing else changes |
| ObjImport.Importer.ReadTriangle | Editor/OpenGolfSimOBJImport.cs:129-157 | either reports the first failing corner of triangle (i, i-1, 0), or appends its three corners |
| ObjImport.Importer.ReadFan | Editor/OpenGolfSimOBJImport.cs:126-158 | the fan loop reports the face's resolution error, or appends all of its triangles in fan order |
| ObjImport.Importer.ReadFace | Editor/OpenGolfSimOBJImport.cs:119-158 | an `f` line leaves the locals as `AddFace` specifies, or reports its error |
| ObjImport.Importer.ReadGroupLine | Editor/OpenGolfSimOBJImport.cs:76-82 | an `o`/`g` line changes the locals as `GroupStep` specifies |
| ObjImport.Importer.ReadVertexLine | Editor/OpenGolfSimOBJImport.cs:83-104 | a `v` line reports its error, or adds exactly its position and colour |
| ObjImport.Importer.ReadNormalLine | Editor/OpenGolfSimOBJImport.cs:106-113 | a `vn` line reports its error, or adds exactly its normal |
| ObjImport.Importer.ReadUvLine | Editor/OpenGolfSimOBJImport.cs:114-118 | a `vt` line reports its error, or adds exactly its uv |
| ObjImport.Importer.ReadLine | Editor/OpenGolfSimOBJImport.cs:74-158 | one line, dispatched on its keyword, reports an error exactly when `Step` fails and otherwise leaves `Step`'s state |
| ObjImport.Importer.ReadLines | Editor/OpenGolfSimOBJImport.cs:71-160 | the loop over the file reports the first failing line, or leaves the state `Run` specifies |
| ObjImport.ImportOBJ | Editor/OpenGolfSimOBJImport.cs:14-166 | a missing file gives `FileNotFound`; otherwise the result is the specified import, whose meshes are well formed and carry all of the file's triangle indices |
| TreeRules.PickFrom | Runtime/OGSTreePlanter.cs:329-342 | the walk from tree k stops at a tree at or after k |
| TreeRules.Pick | Runtime/OGSTreePlanter.cs:319-343 | the picked tree exists; `PickIsFirst`, `PickInterval`, `ZeroWeightNotPicked` and `PickAtOne` state which one |
| TreeRules.PickIsFirst | Runtime/OGSTreePlanter.cs:319-343 | the chosen tree is the first whose running weight total exceeds the scaled random value, or the last tree when none does |
| TreeRules.PrefixMonotone | Runtime/OGSTreePlanter.cs:331-340 | with non-negative weights, running totals never decrease |
| TreeRules.PickInterval | Runtime/OGSTreePlanter.cs:319-343 | with positive weights and a value below 1, the picked tree is the one whose share of the total contains the scaled value, so each tree is chosen in proportion to its weight |
| TreeRules.ZeroWeightNotPicked | Runtime/OGSTreePlanter.cs:332-339 | a tree of weight 0 that is not the last is never picked |
| TreeRules.PickAtOne | Runtime/OGSTreePlanter.cs:328-342 | a random value of exactly 1 passes every running total, so the fallback to the last tree is reached |
| TreeRules.LodIndexForHeight | Runtime/OGSTreePlanter.cs:457-463 | the LOD index lies between -1 and the last LOD |
| TreeRules.LodIndexIsLeast | Runtime/OGSTreePlanter.cs:457-463 | the chosen LOD is the first whose start the screen height reaches, or the last LOD when none is reached |
| TreeRules.LodIndexMonotone | Runtime/OGSTreePlanter.cs:457-463 | a larger screen height never selects a coarser LOD |
| TreeRules.Bucket | Runtime/OGSTreePlanter.cs:357-380 | an instance goes to an existing LOD bucket or is culled |
| TreeRules.BucketsOf | Runtime/OGSTreePlanter.cs:352-382 | there is one bucket per LOD |
| TreeRules.BucketContents | Runtime/OGSTreePlanter.cs:355-382 | bucket l holds, in order, exactly the instances whose distance and screen height select LOD l |
| TreeRules.SumLengthsUpdate | Runtime/OGSTreePlanter.cs:380 | adding an instance to one bucket raises the total by one |
| TreeRules.SumLengthsEmpty | Runtime/OGSTreePlanter.cs:352-353 | freshly cleared buckets hold nothing |
| TreeRules.BucketsPartition | Runtime/OGSTreePlanter.cs:355-382 | the buckets together hold exactly the instances that are not culled |
| TreeRules.Chunks | Runtime/OGSTreePlanter.cs:400-402 | a bucket cut into runs of at most 1023 matrices; `ChunksCover` and `ChunksSized` state its properties |
| TreeRules.ChunksCover | Runtime/OGSTreePlanter.cs:400-414 | chunking a bucket loses and reorders nothing, and every chunk holds 1 to 1023 instances; there are ceil(n/1023) chunks |
| TreeRules.BaseHeight | Runtime/OGSTreePlanter.cs:167-177 | the height of the renderers' bounds, or 1 when there are no renderers |
| TreeRules.SubmeshMaterial | Runtime/OGSTreePlanter.cs:219-224 | a submesh material exists exactly when the renderer has materials |
| TreeRules.SubmeshMaterialChoice | Runtime/OGSTreePlanter.cs:222 | submesh s takes material s, or the last material when there are fewer materials than submeshes |
| TreeRules.SubmeshBatches | Runtime/OGSTreePlanter.cs:219-224 | a mesh gives one batch per submesh |
| TreeRules.SubmeshBatchesContent | Runtime/OGSTreePlanter.cs:219-224 | the batches exist exactly when there are no submeshes or some materials; batch s draws submesh s of the mesh with its material |
| TreeRules.RendererBatches | Runtime/OGSTreePlanter.cs:197-224 | a billboard renderer gives one mesh-less batch, a mesh renderer without a mesh fails, a mesh renderer gives its submesh batches |
| TreeRules.LodBatches | Runtime/OGSTreePlanter.cs:197-230 | the batches of a LOD's renderers in order, the first failing renderer failing the LOD; `LodBatchesPrefixFailure` states the failure rule |
| TreeRules.LodEnd | Runtime/OGSTreePlanter.cs:193 | `lodEnd` of LOD i: 1 for LOD 0, the previous LOD's transition height otherwise |
| TreeRules.LodTable | Runtime/OGSTreePlanter.cs:186-232 | a successful extraction gives one LOD group per LOD |
| TreeRules.LodTableEntries | Runtime/OGSTreePlanter.cs:188-231 | LOD group j starts at LOD j's transition height, ends at the previous LOD's transition height (LOD 0 ends at 1), and holds the batches of LOD j's renderers |
| TreeRules.LodBatchesPrefixFailure | Runtime/OGSTreePlanter.cs:197-230 | a renderer that fails makes its whole LOD fail |
| TreeRules.LodTablePrefixFailure | Runtime/OGSTreePlanter.cs:188-232 | a LOD that fails makes the whole extraction fail |
| TreeRules.FailingRendererFrom | Runtime/OGSTreePlanter.cs:197-230 | the renderer loop resumed at renderer j stops at a renderer whose batches fail, or at the end, with every renderer before it succeeding |
| TreeRules.FailingRenderer | Runtime/OGSTreePlanter.cs:197-230 | the renderer at which the loop throws (the count when none does): every renderer before it succeeds |
| TreeRules.FailingRendererRule | Runtime/OGSTreePlanter.cs:197-230 | the loop runs to the end exactly when the LOD's batches succeed |
| TreeRules.FailingLodFrom | Runtime/OGSTreePlanter.cs:188-232 | the LOD loop resumed at LOD i stops at a LOD whose renderers fail, or at the end, with every LOD before it succeeding |
| TreeRules.FailingLod | Runtime/OGSTreePlanter.cs:188-232 | the LOD at which the loop throws (the count when none does): every LOD before it succeeds |
| TreeRules.FailingLodRule | Runtime/OGSTreePlanter.cs:188-232 | the LOD loop runs to the end exactly when the LOD table succeeds |
| TreeRules.BillboardAfter | Runtime/OGSTreePlanter.cs:200-214 | the billboard fields after the renderers in order, each billboard renderer overwriting them; `BillboardAfterRule` states the outcome |
| TreeRules.BillboardAfterRule | Runtime/OGSTreePlanter.cs:200-214 | the billboard settings come from the last billboard renderer met, its asset and material stored as they are (possibly missing), and are kept when there is none |
| TreeRules.BillboardAfterLodsFlag | Runtime/OGSTreePlanter.cs:188-232 | a tree has a billboard exactly when it had one already or some LOD has a billboard renderer |
| TreeRules.BillboardAtFailure | Runtime/OGSTreePlanter.cs:188-232 | the billboard fields when the LOD loop throws: those the renderers of the earlier LODs and of the failing LOD before the throw leave |
| TreeRules.RangeValue | Runtime/OGSTreePlanter.cs:279 | `Random.Range` over the scale range for a draw in [0, 1]; `PlacementScaleInRange` states the bound |
| TreeRules.PlacementMatrix | Runtime/OGSTreePlanter.cs:279-282 | a planted instance sits at the sampled position |
| TreeRules.PlacementScaleInRange | Runtime/OGSTreePlanter.cs:279 | its scale lies within the tree's scale range |
| TreeRules.Planted | Runtime/OGSTreePlanter.cs:256-296 | the matrices planting appends to one group: those of the placements whose picked tree has it as first LOD, in order; `PlantedStep`, `PlantedOnlyIntoFirstLods` and `PlantedCount` state its properties |
| TreeRules.PlantedStep | Runtime/OGSTreePlanter.cs:285-288 | each placement appends one matrix to the first LOD of the picked tree and to no other group |
| TreeRules.PlantedOnlyIntoFirstLods | Runtime/OGSTreePlanter.cs:284-288 | a group that is no tree's first LOD receives no instances |
| TreeRules.PlantedCount | Runtime/OGSTreePlanter.cs:278-288 | a tree's first LOD receives exactly one instance per placement that picked that tree |
| TreeRules.ChunkDrawsEach | Runtime/OGSTreePlanter.cs:396-414 | every instanced draw of a chunk uses the LOD's mesh, submesh, material and shadow setting and that chunk's matrices |
| TreeRules.Billboards | Runtime/OGSTreePlanter.cs:432-440 | one billboard instance per matrix |
| TreeRules.AllSizedConcat | Runtime/OGSTreePlanter.cs:385-453 | two lists of draws within the instance limit stay within it when joined |
| TreeRules.ChunksSized | Runtime/OGSTreePlanter.cs:400-402 | every chunk has 1 to 1023 instances |
| TreeRules.ChunkDrawsSized | Runtime/OGSTreePlanter.cs:400-414 | draws of chunks within the limit stay within it |
| TreeRules.BatchDraws | Runtime/OGSTreePlanter.cs:396-415 | the draws of a LOD's batches over a bucket, skipping batches without a mesh or material; `BatchDrawsSized` bounds them |
| TreeRules.LodDraws | Runtime/OGSTreePlanter.cs:385-417 | LOD l draws nothing when its bucket is empty or it is the billboard LOD, and casts shadows for LODs 0 and 1 only |
| TreeRules.BatchDrawsSized | Runtime/OGSTreePlanter.cs:396-415 | every draw of a LOD's batches has 1 to 1023 instances |
| TreeRules.LodsDrawsSized | Runtime/OGSTreePlanter.cs:385-417 | every draw of the LOD loop has 1 to 1023 instances |
| TreeRules.BillboardDrawsEach | Runtime/OGSTreePlanter.cs:429-451 | every billboard draw uses the billboard material and one chunk of the last LOD's instances |
| TreeRules.RenderDraws | Runtime/OGSTreePlanter.cs:385-453 | a frame's draws: the LOD loop's, then the billboards' when the tree has a billboard, a material, the quad and instances in the last LOD; `RenderDrawsSized` bounds them |
| TreeRules.RenderDrawsSized | Runtime/OGSTreePlanter.cs:385-453 | no draw call of a frame exceeds the 1023-instance limit of instanced drawing, and none is empty |
| TreeRules.ChunkDrawsCoverBucket | Runtime/OGSTreePlanter.cs:400-414 | the draws of a bucket together draw exactly the bucket's instances, in order |
| Trees.TreeLodGroup.constructor | Runtime/OGSTreePlanter.cs:20-26 | a new LOD group has no batches and no matrices |
| Trees.TreeInfo.constructor | Runtime/OGSTreePlanter.cs:29-43 | a new tree entry has weight 1, scale range 0.85 to 1.25, base height 1, cull height 0.01, no LODs, no billboard and is not yet initialised |
| Trees.HoldsAllAppend | Runtime/OGSTreePlanter.cs:231 | adding a group that holds the next LOD entry keeps the groups matching the table |
| Trees.ClearLods | Runtime/OGSTreePlanter.cs:246-248 | every LOD group of a tree ends with no matrices |
| Trees.ChooseLod | Runtime/OGSTreePlanter.cs:369-380 | the inline LOD loop of the bucketing picks the same LOD as `GetLodIndexForHeight` |
| Trees.DrawChunks | Runtime/OGSTreePlanter.cs:400-414 | the chunk loop issues one instanced draw per chunk of at most 1023 matrices |
| Trees.DrawBatches | Runtime/OGSTreePlanter.cs:396-415 | the batch loop issues the chunk draws of every drawable batch in order |
| Trees.BatchDrawsStep | Runtime/OGSTreePlanter.cs:396-415 | one batch-loop iteration adds that batch's draws in order |
| Trees.DrawBillboards | Runtime/OGSTreePlanter.cs:428-451 | the billboard loop issues one draw per chunk of the last LOD's bucket |
| Trees.BillboardsAt | Runtime/OGSTreePlanter.cs:432-440 | billboard k takes the position and scale of matrix k |
| Trees.LodsDrawsStep | Runtime/OGSTreePlanter.cs:385-417 | one LOD-loop iteration adds that LOD's draws in order |
| Trees.AddSubmeshBatches | Runtime/OGSTreePlanter.cs:219-224 | the submesh loop appends exactly the specified batches; it fails exactly when the mesh has submeshes and the renderer no materials, and then appends nothing |
| Trees.AddRendererBatches | Runtime/OGSTreePlanter.cs:197-224 | one renderer appends its batches and records a billboard renderer's settings; it fails exactly when `RendererBatches` does (a mesh renderer without a mesh, or submeshes without materials), and then changes neither the batches nor the billboard fields |
| Trees.BuildLod | Runtime/OGSTreePlanter.cs:190-231 | a fresh group holding LOD i's start, end and batches, with the billboard fields as its renderers leave them; it fails exactly when a renderer of LOD i fails, and the billboard fields are then those the renderers before the failing one leave |
| Trees.TreePlanter.constructor | Runtime/OGSTreePlanter.cs:56-71 | no trees, a 300-unit render distance and no buckets |
| Trees.TreePlanter.GetRandomTree | Runtime/OGSTreePlanter.cs:319-343 | the tree returned is the weighted pick for the random value |
| Trees.TreePlanter.GetLodIndexForHeight | Runtime/OGSTreePlanter.cs:457-463 | -1 exactly when the tree has no LODs, otherwise an existing LOD |
| Trees.TreePlanter.ExtractLods | Runtime/OGSTreePlanter.cs:186-232 | succeeds exactly when the LOD table does, with fresh, distinct groups matching the table and the billboard fields its renderers leave; on failure the tree holds fresh, distinct groups matching the table of the LODs before the failing one, and the billboard fields the renderers before the throw leave |
| Trees.TreePlanter.ExtractLODGroups | Runtime/OGSTreePlanter.cs:162-238 | a missing entry or prefab changes nothing; otherwise the base height is measured, and a prefab without a LOD group keeps its LODs, cull height and billboard; with one, it succeeds exactly when the LOD table does, the tree then holds fresh distinct groups matching the table, and the cull height is the last LOD's transition height; on failure it holds the LODs built before the throw, the billboard fields the renderers before it leave, and the cull height is unchanged |
| Trees.TreePlanter.ClearMatrices | Runtime/OGSTreePlanter.cs:245-249 | every LOD group of every tree ends with no matrices, and the groups themselves are kept |
| Trees.TreePlanter.PlantOne | Runtime/OGSTreePlanter.cs:278-288 | one placement appends one matrix to the picked tree's first LOD and changes no other group |
| Trees.TreePlanter.PlantPlacements | Runtime/OGSTreePlanter.cs:256-296 | every group ends with its earlier matrices followed by exactly those planted into it |
| Trees.TreePlanter.PlantTrees | Runtime/OGSTreePlanter.cs:240-304 | fails exactly when placements need a tree and there is none, or a tree has no LODs; otherwise each group holds exactly the instances planted into it |
| Trees.TreePlanter.AllHaveLods | Runtime/OGSTreePlanter.cs:298-302 | true exactly when every tree has at least one LOD |
| Trees.TreePlanter.FillBuckets | Runtime/OGSTreePlanter.cs:352-382 | the buckets are the specified culling and LOD selection of the first LOD's instances |
| Trees.TreePlanter.DrawLod | Runtime/OGSTreePlanter.cs:385-417 | draws one LOD's bucket as specified, skipping the last LOD when a billboard replaces it |
| Trees.TreePlanter.DrawLods | Runtime/OGSTreePlanter.cs:385-417 | the LOD loop's draws are those of every LOD in order |
| Trees.TreePlanter.RenderTrees | Runtime/OGSTreePlanter.cs:345-455 | nothing is drawn without a tree, LODs or instances; otherwise the buckets are rebuilt and the frame's draws are the specified ones, none over the instance limit |
| Trees.TreePlanter.OnValidate | Runtime/OGSTreePlanter.cs:477-488 | entries seen for the first time get the default tuning, and entries seen before keep theirs |
| ImportWindow.FileName | Editor/OpenGolfSimImportWindow.cs:140 | the file name is a suffix of the path |
| ImportWindow.FileNameRule | Editor/OpenGolfSimImportWindow.cs:140 | the file name is everything after the last directory separator, and holds none |
| ImportWindow.LastIndexOf | Editor/OpenGolfSimImportWindow.cs:140 | the position found holds the character and none follows it; no position means the character is absent |
| ImportWindow.FileNameWithoutExtension | Editor/OpenGolfSimImportWindow.cs:140 | `Path.GetFileNameWithoutExtension`: the file name up to its last `.` |
| ImportWindow.GroupPrefix | Editor/OpenGolfSimImportWindow.cs:141-142 | the first piece of the split when there is more than one, the whole name otherwise; `GroupPrefixRule` states it |
| ImportWindow.PrefixOf | Editor/OpenGolfSimImportWindow.cs:140-142 | the group key of a path: the prefix of its lower-cased file name without extension |
| ImportWindow.GroupPrefixRule | Editor/OpenGolfSimImportWindow.cs:141-142 | the prefix is the lower-cased file name up to its first `_`, or the whole name without one |
| ImportWindow.DefaultMaterial | Editor/OpenGolfSimImportWindow.cs:149-165 | the if-else chain of keyword tests; `FirstKeywordRule` and `DefaultMaterialByPriority` state its outcome |
| ImportWindow.FirstKeywordRule | Editor/OpenGolfSimImportWindow.cs:149-165 | the material is that of the first keyword in the list that the prefix contains, and none when it contains none |
| ImportWindow.DefaultMaterialByPriority | Editor/OpenGolfSimImportWindow.cs:149-165 | the if-else chain checks fairway, green, rough, first (first cut), fringe, tee, sand and river in that order |
| ImportWindow.GroupKeys | Editor/OpenGolfSimImportWindow.cs:145-167 | there are never more groups than files |
| ImportWindow.PathsWith | Editor/OpenGolfSimImportWindow.cs:169 | a group never holds more paths than there are files |
| ImportWindow.GroupKeysRule | Editor/OpenGolfSimImportWindow.cs:138-171 | the group prefixes are distinct, and a prefix has a group exactly when some file has it |
| ImportWindow.PathsWithRule | Editor/OpenGolfSimImportWindow.cs:138-169 | a group holds only files with its prefix, and every file with its prefix |
| ImportWindow.PathsWithConcat | Editor/OpenGolfSimImportWindow.cs:169 | grouping two runs of files groups the first, then the second |
| ImportWindow.GroupKeysAppend | Editor/OpenGolfSimImportWindow.cs:145-167 | a file with a new prefix opens a new group at the end; a known prefix leaves the groups as they were |
| ImportWindow.PathsWithAppend | Editor/OpenGolfSimImportWindow.cs:169 | a file is appended to its own group only |
| ImportWindow.PathsWithNone | Editor/OpenGolfSimImportWindow.cs:145-147 | a prefix with no group has no paths |
| ImportWindow.GroupsPartition | Editor/OpenGolfSimImportWindow.cs:138-170 | the group sizes add up to the number of files, so every file lands in exactly one group |
| ImportWindow.SizesStep | Editor/OpenGolfSimImportWindow.cs:169 | one more file adds one to the size of its own group |
| ImportWindow.SizesAppend | Editor/OpenGolfSimImportWindow.cs:145-147 | one more group adds its own size to the total |
| ImportWindow.ObjImportGroup.constructor | Editor/OpenGolfSim.cs:109-114 | a new group has its prefix, no paths and no material |
| ImportWindow.FindOrCreate | Editor/OpenGolfSimImportWindow.cs:145-168 | returns the existing group for the prefix, or a fresh one with the prefix's default material stored under it; other entries are unchanged |
| ImportWindow.AddPath | Editor/OpenGolfSimImportWindow.cs:140-169 | one loop iteration keeps every group holding exactly the files seen so far with its prefix |
| ImportWindow.GroupPaths | Editor/OpenGolfSimImportWindow.cs:138-170 | after the loop there is one fresh group per distinct prefix, in first-seen order, each holding exactly its files |
| ImportWindow.ImportGroups.constructor | Editor/OpenGolfSimImportWindow.cs:12 | the window starts with no groups |
| ImportWindow.ImportGroups.ScanAndGroupObjFiles | Editor/OpenGolfSimImportWindow.cs:131-172 | the list is replaced by distinct fresh groups, one per prefix in first-seen order, each holding exactly the files with that prefix and the prefix's default material |
| CourseRules.HoleName | Runtime/OGSCourseData.cs:85 | the name of hole i is `Hole ` and the number i+1 |
| CourseRules.HoleNamesDistinct | Scripts/OGSCourse.cs:60-63 | holes at different positions get different names |
| CourseRules.ClampedDistance | Runtime/OGSCourseData.cs:88-90 | a negative snap distance becomes 0; any other distance is kept |
| CourseData.Hole.constructor | Runtime/OGSCourseData.cs:14-46 | a new hole is named `Hole`, par 4, tee and tee-green at the origin, the pin 10 and the aim point (off) 5 units forward |
| CourseData.CourseData.constructor | Runtime/OGSCourseData.cs:56-66 | no holes, snapping on, a 100-unit snap distance and every layer |
| CourseData.CourseData.Reset | Runtime/OGSCourseData.cs:72-78 | snapping on, a 50-unit snap distance and every layer; the holes are kept |
| CourseData.CourseData.RenameHoles | Runtime/OGSCourseData.cs:83-86 | every hole is renamed after its position; nothing else of any hole changes |
| CourseData.CourseData.OnValidate | Runtime/OGSCourseData.cs:80-91 | holes named after their positions, all names distinct, a negative distance set to 0 and any other kept, other fields kept; validating again changes nothing |
| Course.Hole.constructor | Scripts/OGSCourse.cs:5-23 | a new hole is named `Hole`, par 4, the tee at the origin, the pin 10 and the aim point (off) 5 units forward |
| Course.Course.constructor | Scripts/OGSCourse.cs:28-43 | 18 holes to define, no holes, snapping on, a 50-unit snap distance and every layer |
| Course.Course.Reset | Scripts/OGSCourse.cs:49-55 | snapping on, a 50-unit snap distance and every layer; the hole count and holes are kept |
| Course.Course.RenameHoles | Scripts/OGSCourse.cs:60-63 | every hole is renamed after its position; nothing else of any hole changes |
| Course.Course.OnValidate | Scripts/OGSCourse.cs:57-68 | holes named after their positions, all names distinct, a negative distance set to 0 and any other kept, hole count and list length untouched; validating again changes nothing |

## Left out

- File reading: the OBJ file is given as `Option<seq<string>>` of lines, with `None` when the file does not exist. The `File.Exists` check (Editor/OpenGolfSimOBJImport.cs:16) and the `StreamReader.ReadLine` loop (:71-74) are not modelled beyond that.
- `float.Parse` and `int.Parse` are a parameter (`Parsers`). The model does not fix their culture or number syntax; it only records when they throw.
- Floating point: coordinates, colours, weights and heights are reals. Rounding of the float arithmetic is not modelled.
- ObjLines.RgbColor: the division by 255 is exact real division, not single-precision division.
- The Unity `Mesh` object and `RecalculateNormals`/`RecalculateBounds`: an emitted mesh is a record of its buffers, its name and its index format, and the recalculated normals and bounds are not computed.
- `Debug.Log` and `Debug.LogError` output is not modelled. The report loop at the end of `PlantTrees` (`Debug.Log` at Runtime/OGSTreePlanter.cs:300) reads `lods[0]` and so throws on a tree without LODs; that throw is modelled as the failure result.
- Randomness, terrain height sampling and the placement mask of `PlantTrees`: replaced by an input sequence of placements, each with a pick value, a position and a scale fraction. The number of placements attempted and rejected is not modelled.
- The camera and `ComputeScreenRelativeHeight`: replaced by a `sight` parameter giving each instance's distance and screen-relative height.
- `Graphics.DrawMeshInstanced`: each call is a `DrawCall` value in the returned list. Material property blocks are not modelled.
- Prefab instantiation, the `LODGroup` component and renderer lookup: a prefab is a value listing its LODs and renderers.
- `Regenerate`, `OnEnable`, `Update`, `Awake` and `BuildQuadMesh` are left out. Whether the billboard quad exists is a `quadReady` parameter of `RenderTrees`.
- Editor hooks (`EditorApplication.update` at Runtime/OGSTreePlanter.cs:125 and :132, `SetDirty`) and the scene view are not modelled.
- ImportWindow.FileNameRule: both `/` and `\` are treated as directory separators, whatever the platform.
- Strings.ToLower: only the ASCII letters are lowered, not culture-specific case mappings.
- ImportWindow.ImportGroups.ScanAndGroupObjFiles: the order of `Dictionary.Values` is taken to be insertion order, which holds for a dictionary without removals but is not guaranteed by .NET.
- Materials are an enumeration of the eight surface kinds. Material asset loading is not modelled, and neither is the folder listing (the files are an input).
- The rest of the import window (GUI, import button, material fields) and the `ObjImportGroup` material assignment UI are not modelled.
- CourseData.CourseData.OnValidate: requires that no hole object appears twice in the list. A serialised list never shares entries, but the code itself does not check it.
- Course.Course.OnValidate: requires the same of its holes, for the same reason.
- CourseData.CourseData.RenameHoles: requires the same distinctness; with a shared hole, the later name would win.
- Course.Course.RenameHoles: the same requirement as above.
- Trees.TreePlanter.OnValidate: the tree list is modelled as non-null `TreeInfo` objects. The C# list may hold null entries, which `OnValidate` skips (Runtime/OGSTreePlanter.cs:479).
- Trees.TreePlanter.PlantTrees: a null tree entry, on which the clearing loop throws (Runtime/OGSTreePlanter.cs:246), is not modelled, for the same reason.
- ObjImport.GroupLineNaming: the counter is an unbounded natural. The C# `int` of `++meshCount` (Editor/OpenGolfSimOBJImport.cs:81) would wrap after 2^31 - 1 unnamed segments.
- Trees.TreePlanter.GetRandomTree: weights and their sums are unbounded integers. The C# `int` sums `totalWeight` and `accumulated` (Runtime/OGSTreePlanter.cs:322-334) would wrap once the weights add up past 2^31 - 1.
- Strings.StartsWith: an ordinal prefix test. The keyword tests of the importer (Editor/OpenGolfSimOBJImport.cs:75-119) call `StartsWith(string)`, which compares by the current culture and may ignore characters that culture treats as ignorable.
- The slider range 1 to 18 of `OGSCourse.holeCount` is an inspector hint only and is not enforced, in the code or in the model.
- The course setup window, the export window and range data are not part of this model.
- The field initialiser of `OGSCourseData` sets a 100-unit snap distance while `Reset` sets 50. Both are modelled as written.
