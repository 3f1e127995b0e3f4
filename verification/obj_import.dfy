/**
  `OpenGolfSimOBJImport.ImportOBJ` (Editor/OpenGolfSimOBJImport.cs): the line loop over
  an OBJ file, the file-global tables, the per-segment buffers and the commit that
  turns a segment into a named mesh at every `o`/`g` line and at the end of the file.

  `Step`, `Run` and `Import` state what the import computes; the `Importer` class and
  `ImportOBJ` do it as the C# importer does, in place, and are proved to agree.
*/
module ObjImport {
  import opened Wrappers
  import opened Strings
  import opened Geometry
  import opened ObjLines

  /** Above this many vertices a mesh switches to 32-bit indices. */
  const WideIndexThreshold := 65000

  /** One emitted mesh. A buffer is `None` when `CommitCurrentMesh` does not hand it
      to the mesh (its length differs from the vertex count); `wideIndices` records the
      switch to the 32-bit index format. */
  datatype ImportedMesh = ImportedMesh(
    name: string,
    vertices: seq<Vec3>,
    triangles: seq<int>,
    normals: Option<seq<Vec3>>,
    uvs: Option<seq<Vec2>>,
    colors: Option<seq<Color>>,
    wideIndices: bool)

  /** Everything `ImportOBJ` keeps between two lines. */
  datatype ImportState = ImportState(
    tables: Tables,
    segment: Segment,
    meshes: seq<ImportedMesh>,
    currentName: string,
    meshCount: nat)

  /** The generated name of a segment whose `o`/`g` line has no name. */
  function FallbackName(n: nat): string {
    "OBJMesh_" + NatToString(n)
  }

  const InitialState := ImportState(EmptyTables, EmptySegment, [], FallbackName(0), 0)

  /** A buffer is handed to the mesh only when it has one entry per vertex. */
  function IfMatching<T>(buffer: seq<T>, count: nat): Option<seq<T>> {
    if |buffer| == count then Some(buffer) else None
  }

  /** The mesh built from a segment by `CommitCurrentMesh`. */
  function MeshOf(seg: Segment, name: string): ImportedMesh {
    var n := |seg.vertices|;
    ImportedMesh(name, seg.vertices, seg.triangles, IfMatching(seg.normals, n),
                 IfMatching(seg.uvs, n), IfMatching(seg.colors, n), n > WideIndexThreshold)
  }

  /** `CommitCurrentMesh`: an empty segment emits nothing; otherwise one mesh named
      after the current segment is emitted and the buffers are cleared. The
      file-global tables are never cleared. */
  function Commit(s: ImportState): ImportState {
    if |s.segment.triangles| == 0 then s
    else s.(meshes := s.meshes + [MeshOf(s.segment, s.currentName)], segment := EmptySegment)
  }

  predicate IsGroupLine(line: string) {
    StartsWith(line, "o ") || StartsWith(line, "g ")
  }

  /** An `o`/`g` line: the segment so far is committed, and the next one is named
      after the trimmed rest of the line or, when that is empty, after the next value
      of the counter. */
  function GroupStep(s: ImportState, line: string): (r: ImportState)
    requires |line| >= 2
    ensures r.tables == s.tables && r.meshes == Commit(s).meshes && r.segment == Commit(s).segment
    ensures r.meshCount >= s.meshCount
  {
    var c := Commit(s);
    var name := Trim(line[2..]);
    if |name| == 0 then c.(currentName := FallbackName(c.meshCount + 1), meshCount := c.meshCount + 1)
    else c.(currentName := name)
  }

  /** A `v` line adds one position and its colour. */
  function VertexStep(s: ImportState, line: string, p: Parsers): Result<ImportState, ImportError> {
    var v :- VertexLine(line, p);
    Success(s.(tables := s.tables.(positions := s.tables.positions + [v.0], colors := s.tables.colors + [v.1])))
  }

  /** A `vn` line adds one normal. */
  function NormalStep(s: ImportState, line: string, p: Parsers): Result<ImportState, ImportError> {
    var n :- NormalLine(line, p);
    Success(s.(tables := s.tables.(normals := s.tables.normals + [n])))
  }

  /** A `vt` line adds one uv. */
  function UvStep(s: ImportState, line: string, p: Parsers): Result<ImportState, ImportError> {
    var uv :- UvLine(line, p);
    Success(s.(tables := s.tables.(uvs := s.tables.uvs + [uv])))
  }

  /** An `f` line adds its triangles to the segment. */
  function FaceStep(s: ImportState, line: string, p: Parsers): Result<ImportState, ImportError>
    requires |line| >= 2
  {
    var seg :- AddFace(s.segment, s.tables, line, p);
    Success(s.(segment := seg))
  }

  /** One line of the file, dispatched on its first characters in the order
      `ImportOBJ` tests them: `o `/`g `, `v `, `vn `, `vt `, `f `; any other line is ignored. */
  function Step(s: ImportState, line: string, p: Parsers): Result<ImportState, ImportError> {
    if IsGroupLine(line) then Success(GroupStep(s, line))
    else if StartsWith(line, "v ") then VertexStep(s, line, p)
    else if StartsWith(line, "vn ") then NormalStep(s, line, p)
    else if StartsWith(line, "vt ") then UvStep(s, line, p)
    else if StartsWith(line, "f ") then FaceStep(s, line, p)
    else Success(s)
  }

  /** The lines read in order; the first failing line aborts. */
  function Run(s: ImportState, lines: seq<string>, p: Parsers): Result<ImportState, ImportError> {
    if lines == [] then Success(s)
    else
      var before :- Run(s, lines[..|lines| - 1], p);
      Step(before, lines[|lines| - 1], p)
  }

  /** The whole import: a missing file gives `FileNotFound`, otherwise every line is
      read and the last segment is committed. */
  function Import(file: Option<seq<string>>, p: Parsers): Result<seq<ImportedMesh>, ImportError> {
    match file
    case None => Failure(FileNotFound)
    case Some(lines) =>
      var s :- Run(InitialState, lines, p);
      Success(Commit(s).meshes)
  }

  /** An emitted mesh has at least one triangle, one entry per vertex in every buffer
      (so none of them is dropped), unshared vertices, and the index format its size
      calls for. */
  predicate MeshWellFormed(m: ImportedMesh) {
    && |m.triangles| > 0
    && m.normals.Some? && m.uvs.Some? && m.colors.Some?
    && Aligned(Segment(m.vertices, m.colors.value, m.uvs.value, m.normals.value, m.triangles))
    && m.wideIndices == (|m.vertices| > WideIndexThreshold)
  }

  /** The invariant of the import: one colour per position, aligned segment buffers,
      well-formed emitted meshes. */
  predicate WellFormed(s: ImportState) {
    && |s.tables.colors| == |s.tables.positions|
    && Aligned(s.segment)
    && forall m :: m in s.meshes ==> MeshWellFormed(m)
  }

  /** A commit with no triangles changes nothing; otherwise it emits exactly one mesh,
      carrying the current name and the segment's buffers. Either way the buffers are
      empty afterwards and the tables, name and counter are untouched. */
  lemma CommitRules(s: ImportState)
    requires WellFormed(s)
    ensures var c := Commit(s);
      && WellFormed(c)
      && c.segment == EmptySegment
      && c.tables == s.tables && c.currentName == s.currentName && c.meshCount == s.meshCount
      && (|s.segment.triangles| == 0 ==> c == s)
      && (|s.segment.triangles| > 0 ==>
            && |c.meshes| == |s.meshes| + 1
            && c.meshes[..|s.meshes|] == s.meshes
            && c.meshes[|s.meshes|].name == s.currentName
            && c.meshes[|s.meshes|].vertices == s.segment.vertices
            && c.meshes[|s.meshes|].triangles == s.segment.triangles
            && c.meshes[|s.meshes|].colors == Some(s.segment.colors)
            && c.meshes[|s.meshes|].uvs == Some(s.segment.uvs)
            && c.meshes[|s.meshes|].normals == Some(s.segment.normals))
  {
    if |s.segment.triangles| == 0 {
      assert s.segment == EmptySegment;
    } else {
      var m := MeshOf(s.segment, s.currentName);
      assert MeshWellFormed(m);
    }
  }

  /** Every line keeps the import invariant. */
  lemma StepWellFormed(s: ImportState, line: string, p: Parsers)
    requires WellFormed(s) && Step(s, line, p).Success?
    ensures WellFormed(Step(s, line, p).value)
  {
    if IsGroupLine(line) {
      CommitRules(s);
    } else if StartsWith(line, "v ") {
    } else if StartsWith(line, "vn ") {
    } else if StartsWith(line, "vt ") {
    } else if StartsWith(line, "f ") {
      AddFaceSize(s.segment, s.tables, line, p);
    }
  }

  /** Lines only ever append: the tables and the emitted meshes of the earlier state
      are prefixes of the later ones, so a face index means the same slot in every
      segment of the file. */
  lemma StepOnlyAppends(s: ImportState, line: string, p: Parsers)
    requires Step(s, line, p).Success?
    ensures var t := Step(s, line, p).value;
      && s.tables.positions <= t.tables.positions && s.tables.colors <= t.tables.colors
      && s.tables.normals <= t.tables.normals && s.tables.uvs <= t.tables.uvs
      && s.meshes <= t.meshes && s.meshCount <= t.meshCount
  {
  }

  /** What a line does to the tables: a `v` line adds exactly one position and one
      colour, `vn` one normal, `vt` one uv, and no other line touches them. */
  lemma StepTables(s: ImportState, line: string, p: Parsers)
    requires Step(s, line, p).Success?
    ensures var t := Step(s, line, p).value.tables;
      var isV := !IsGroupLine(line) && StartsWith(line, "v ");
      var isVn := !IsGroupLine(line) && !isV && StartsWith(line, "vn ");
      var isVt := !IsGroupLine(line) && !isV && !isVn && StartsWith(line, "vt ");
      && |t.positions| == |s.tables.positions| + (if isV then 1 else 0)
      && |t.colors| == |s.tables.colors| + (if isV then 1 else 0)
      && |t.normals| == |s.tables.normals| + (if isVn then 1 else 0)
      && |t.uvs| == |s.tables.uvs| + (if isVt then 1 else 0)
  {
  }

  /** An `o`/`g` line first commits, then names the new segment after the trimmed rest
      of the line or, when that is empty, after the next value of the counter. */
  lemma GroupLineNaming(s: ImportState, line: string, p: Parsers)
    requires WellFormed(s) && IsGroupLine(line)
    ensures Step(s, line, p).Success?
    ensures var t := Step(s, line, p).value; var name := Trim(line[2..]);
      && t.meshes == Commit(s).meshes
      && t.segment == EmptySegment
      && t.tables == s.tables
      && (name != "" ==> t.currentName == name && t.meshCount == s.meshCount)
      && (name == "" ==> t.currentName == FallbackName(s.meshCount + 1) && t.meshCount == s.meshCount + 1)
  {
    CommitRules(s);
  }

  /** Generated names never repeat: different counter values give different names. */
  lemma FallbackNamesDistinct(a: nat, b: nat)
    requires a != b
    ensures FallbackName(a) != FallbackName(b)
  {
    NatToStringInjective(a, b);
    assert FallbackName(a)[8..] == NatToString(a);
    assert FallbackName(b)[8..] == NatToString(b);
  }

  /** The number of triangle indices a line contributes: `3 * (n - 2)` for a face
      line with `n >= 3` corners, none for any other line. */
  function LineCorners(line: string): nat {
    if StartsWith(line, "f ") then FaceCornerCount(line) else 0
  }

  function FileCorners(lines: seq<string>): nat {
    if lines == [] then 0 else FileCorners(lines[..|lines| - 1]) + LineCorners(lines[|lines| - 1])
  }

  /** The triangle indices of the emitted meshes. */
  function TotalIndices(meshes: seq<ImportedMesh>): nat {
    if meshes == [] then 0 else TotalIndices(meshes[..|meshes| - 1]) + |meshes[|meshes| - 1].triangles|
  }

  /** Triangle indices emitted so far or waiting in the segment. */
  function Emitted(s: ImportState): nat {
    TotalIndices(s.meshes) + |s.segment.triangles|
  }

  /** A commit moves indices from the segment to the output without losing any. */
  lemma CommitKeepsIndices(s: ImportState)
    requires WellFormed(s)
    ensures Emitted(Commit(s)) == Emitted(s)
  {
    if |s.segment.triangles| > 0 {
      var c := Commit(s);
      assert c.meshes[..|c.meshes| - 1] == s.meshes;
    }
  }

  /** A line that does not start with `f ` contributes no indices. */
  lemma NotFaceLine(line: string, c: char)
    requires |line| >= 1 && line[0] == c && c != 'f'
    ensures LineCorners(line) == 0
  {
    assert !StartsWith(line, "f ") by {
      if |line| >= 2 {
        assert line[..2][0] == line[0];
      }
    }
  }

  /** Every line adds exactly its own face's indices to the total. */
  lemma StepCounts(s: ImportState, line: string, p: Parsers)
    requires WellFormed(s) && Step(s, line, p).Success?
    ensures Emitted(Step(s, line, p).value) == Emitted(s) + LineCorners(line)
  {
    if IsGroupLine(line) {
      GroupLineCounts(s, line, p);
    } else if StartsWith(line, "v ") || StartsWith(line, "vn ") || StartsWith(line, "vt ") {
      TableLineCounts(s, line, p);
    } else {
      OtherLineCounts(s, line, p);
    }
  }

  lemma GroupLineCounts(s: ImportState, line: string, p: Parsers)
    requires WellFormed(s) && Step(s, line, p).Success? && IsGroupLine(line)
    ensures Emitted(Step(s, line, p).value) == Emitted(s) && LineCorners(line) == 0
  {
    assert line[0] == line[..2][0];
    NotFaceLine(line, line[0]);
    CommitKeepsIndices(s);
  }

  lemma TableLineCounts(s: ImportState, line: string, p: Parsers)
    requires Step(s, line, p).Success? && !IsGroupLine(line)
    requires StartsWith(line, "v ") || StartsWith(line, "vn ") || StartsWith(line, "vt ")
    ensures Emitted(Step(s, line, p).value) == Emitted(s) && LineCorners(line) == 0
  {
    assert line[0] == 'v' by { assert line[..2][0] == line[0]; }
    NotFaceLine(line, 'v');
    var t := Step(s, line, p).value;
    assert t.meshes == s.meshes && t.segment == s.segment;
  }

  lemma OtherLineCounts(s: ImportState, line: string, p: Parsers)
    requires WellFormed(s) && Step(s, line, p).Success? && !IsGroupLine(line)
    requires !(StartsWith(line, "v ") || StartsWith(line, "vn ") || StartsWith(line, "vt "))
    ensures Emitted(Step(s, line, p).value) == Emitted(s) + LineCorners(line)
  {
    if StartsWith(line, "f ") {
      AddFaceSize(s.segment, s.tables, line, p);
    }
  }

  /** Reading lines keeps the invariant and adds exactly their face indices. */
  lemma {:induction false} RunProperties(s: ImportState, lines: seq<string>, p: Parsers)
    requires WellFormed(s) && Run(s, lines, p).Success?
    ensures WellFormed(Run(s, lines, p).value)
    ensures Emitted(Run(s, lines, p).value) == Emitted(s) + FileCorners(lines)
  {
    if lines != [] {
      var init := lines[..|lines| - 1];
      RunProperties(s, init, p);
      var before := Run(s, init, p).value;
      StepWellFormed(before, lines[|lines| - 1], p);
      StepCounts(before, lines[|lines| - 1], p);
    }
  }

  /** The first failing line decides the outcome of the whole file. */
  lemma {:induction false} RunPrefixFailure(s: ImportState, lines: seq<string>, i: nat, p: Parsers)
    requires i <= |lines| && Run(s, lines[..i], p).Failure?
    ensures Run(s, lines, p) == Run(s, lines[..i], p)
    decreases |lines| - i
  {
    if i < |lines| {
      assert lines[..i + 1][..i] == lines[..i];
      RunPrefixFailure(s, lines, i + 1, p);
    } else {
      assert lines[..i] == lines;
    }
  }

  /** A successful import emits only well-formed meshes, and their triangle indices add
      up to `3 * (n - 2)` over the file's face lines with `n >= 3` corners. */
  lemma ImportProperties(file: Option<seq<string>>, p: Parsers)
    requires Import(file, p).Success?
    ensures forall m :: m in Import(file, p).value ==> MeshWellFormed(m)
    ensures TotalIndices(Import(file, p).value) == FileCorners(file.value)
  {
    var lines := file.value;
    assert WellFormed(InitialState);
    RunProperties(InitialState, lines, p);
    var s := Run(InitialState, lines, p).value;
    CommitRules(s);
    CommitKeepsIndices(s);
  }

  /** The locals of `ImportOBJ`, including those the `CommitCurrentMesh` closure
      captures. */
  class Importer {
    var vertices: seq<Vec3>
    var colors: seq<Color>
    var normals: seq<Vec3>
    var uvs: seq<Vec2>
    var importedMeshes: seq<ImportedMesh>
    var meshTriangles: seq<int>
    var meshVertices: seq<Vec3>
    var meshNormals: seq<Vec3>
    var meshUVs: seq<Vec2>
    var meshColors: seq<Color>
    var currentName: string
    var meshCount: nat

    function State(): ImportState
      reads this
    {
      ImportState(Tables(vertices, colors, normals, uvs),
                  Segment(meshVertices, meshColors, meshUVs, meshNormals, meshTriangles),
                  importedMeshes, currentName, meshCount)
    }

    constructor ()
      ensures State() == InitialState
    {
      vertices, colors, normals, uvs := [], [], [], [];
      importedMeshes := [];
      meshTriangles, meshVertices, meshNormals, meshUVs, meshColors := [], [], [], [], [];
      currentName := "OBJMesh_0";
      meshCount := 0;
    }

    /** `CommitCurrentMesh` */
    method CommitCurrentMesh()
      modifies this
      ensures State() == Commit(old(State()))
    {
      if |meshTriangles| == 0 {
        return;
      }
      var n := |meshVertices|;
      var mesh := ImportedMesh(currentName, meshVertices, meshTriangles,
                               if |meshNormals| == n then Some(meshNormals) else None,
                               if |meshUVs| == n then Some(meshUVs) else None,
                               if |meshColors| == n then Some(meshColors) else None,
                               n > WideIndexThreshold);
      importedMeshes := importedMeshes + [mesh];
      meshVertices := [];
      meshNormals := [];
      meshUVs := [];
      meshTriangles := [];
      meshColors := [];
    }

    /** One corner of a face: a fresh vertex with its colour, uv and normal, and the
        index of that vertex. */
    method PushCorner(c: Corner)
      modifies this
      ensures State() == old(State()).(segment := AddCorner(old(State()).segment, c))
    {
      meshVertices := meshVertices + [c.position];
      meshTriangles := meshTriangles + [|meshVertices| - 1];
      meshColors := meshColors + [c.color];
      meshUVs := meshUVs + [c.uv];
      meshNormals := meshNormals + [c.normal];
    }

    /** Triangle `(i, i - 1, 0)` of a face: each corner resolved against the tables
        and appended as a fresh vertex. */
    method ReadTriangle(vals: seq<string>, i: nat, p: Parsers) returns (err: Option<ImportError>)
      requires 2 <= i < |vals|
      modifies this
      ensures var r := TriangleCorners(old(State()).tables, vals, i, p);
        && (err.None? <==> r.Success?)
        && (r.Failure? ==> err == Some(r.error))
        && (r.Success? ==> State() == old(State()).(segment := Append(old(State()).segment, r.value)))
    {
      var tables := Tables(vertices, colors, normals, uvs);
      var triangle := Triangle(i);
      ghost var s0 := State();
      ghost var done: seq<Corner> := [];
      assert triangle[..0] == [];
      var m := 0;
      while m < 3
        invariant 0 <= m <= 3 && |done| == m
        invariant s0 == old(State()) && tables == s0.tables
        invariant ResolveAll(tables, vals, triangle[..m], p) == Success(done)
        invariant State() == s0.(segment := Append(s0.segment, done))
      {
        var c := ResolveCorner(tables, vals[triangle[m]], p);
        ResolveAllStep(tables, vals, triangle, m, done, p);
        if c.Failure? {
          return Some(c.error);
        }
        PushCorner(c.value);
        AppendSnoc(s0.segment, done, c.value);
        done := done + [c.value];
        m := m + 1;
      }
      assert triangle[..3] == triangle;
      err := None;
    }

    /** The triangles `(i, i - 1, 0)` of a face with corners `vals`, for `i` from the
        last corner down to 2, one fresh vertex per corner. */
    method ReadFan(vals: seq<string>, p: Parsers) returns (err: Option<ImportError>)
      requires |vals| >= 3
      modifies this
      ensures var r := ResolveAll(old(State()).tables, vals, FanOrder(|vals|), p);
        && (err.None? <==> r.Success?)
        && (r.Failure? ==> err == Some(r.error))
        && (r.Success? ==> State() == old(State()).(segment := Append(old(State()).segment, r.value)))
    {
      var n := |vals|;
      ghost var s0 := State();
      ghost var done: seq<Corner> := [];
      var i := n - 1;
      while i >= 2
        invariant 1 <= i <= n - 1
        invariant 3 * (n - 1 - i) <= |FanOrder(n)|
        invariant FanPrefix(s0.tables, vals, 3 * (n - 1 - i), p) == Success(done)
        invariant State() == s0.(segment := Append(s0.segment, done))
      {
        FanStep(s0.tables, vals, i, done, p);
        ghost var tri := TriangleCorners(s0.tables, vals, i, p);
        err := ReadTriangle(vals, i, p);
        if err.Some? {
          return;
        }
        AppendConcat(s0.segment, done, tri.value);
        done := done + tri.value;
        i := i - 1;
      }
      FanPrefixAll(s0.tables, vals, p);
      err := None;
    }

    /** An `f` line: the corners after the keyword, triangulated as a reversed fan;
        a face with fewer than three corners adds nothing. */
    method ReadFace(line: string, p: Parsers) returns (err: Option<ImportError>)
      requires |line| >= 2
      modifies this
      ensures var r := AddFace(old(State()).segment, old(State()).tables, line, p);
        && (err.None? <==> r.Success?)
        && (r.Failure? ==> err == Some(r.error))
        && (r.Success? ==> State() == old(State()).(segment := r.value))
    {
      var vals := FaceTokens(line);
      if |vals| < 3 {
        return None;
      }
      err := ReadFan(vals, p);
    }

    /** `err` reports the outcome `r` of a line, and on success the locals hold the
        new state. */
    predicate Reports(err: Option<ImportError>, r: Result<ImportState, ImportError>)
      reads this
    {
      && (err.None? <==> r.Success?)
      && (r.Failure? ==> err == Some(r.error))
      && (r.Success? ==> State() == r.value)
    }

    /** An `o` or `g` line. */
    method ReadGroupLine(line: string)
      requires IsGroupLine(line)
      modifies this
      ensures State() == GroupStep(old(State()), line)
    {
      CommitCurrentMesh();
      currentName := Trim(line[2..]);
      if |currentName| == 0 {
        meshCount := meshCount + 1;
        currentName := "OBJMesh_" + NatToString(meshCount);
      }
    }

    /** A `v` line. */
    method ReadVertexLine(line: string, p: Parsers) returns (err: Option<ImportError>)
      modifies this
      ensures Reports(err, VertexStep(old(State()), line, p))
    {
      var v := VertexLine(line, p);
      if v.Failure? {
        return Some(v.error);
      }
      vertices := vertices + [v.value.0];
      colors := colors + [v.value.1];
      err := None;
    }

    /** A `vn` line. */
    method ReadNormalLine(line: string, p: Parsers) returns (err: Option<ImportError>)
      modifies this
      ensures Reports(err, NormalStep(old(State()), line, p))
    {
      var nrm := NormalLine(line, p);
      if nrm.Failure? {
        return Some(nrm.error);
      }
      normals := normals + [nrm.value];
      err := None;
    }

    /** A `vt` line. */
    method ReadUvLine(line: string, p: Parsers) returns (err: Option<ImportError>)
      modifies this
      ensures Reports(err, UvStep(old(State()), line, p))
    {
      var uv := UvLine(line, p);
      if uv.Failure? {
        return Some(uv.error);
      }
      uvs := uvs + [uv.value];
      err := None;
    }

    /** One line of the file, dispatched on its first characters. */
    method ReadLine(line: string, p: Parsers) returns (err: Option<ImportError>)
      modifies this
      ensures Reports(err, Step(old(State()), line, p))
    {
      if StartsWith(line, "o ") || StartsWith(line, "g ") {
        ReadGroupLine(line);
        err := None;
      } else if StartsWith(line, "v ") {
        err := ReadVertexLine(line, p);
      } else if StartsWith(line, "vn ") {
        err := ReadNormalLine(line, p);
      } else if StartsWith(line, "vt ") {
        err := ReadUvLine(line, p);
      } else if StartsWith(line, "f ") {
        err := ReadFace(line, p);
      } else {
        err := None;
      }
    }

    /** The lines of the file, read one by one from the initial state; the first
        line that fails stops the import. */
    method ReadLines(lines: seq<string>, p: Parsers) returns (err: Option<ImportError>)
      requires State() == InitialState
      modifies this
      ensures Reports(err, Run(InitialState, lines, p))
    {
      var i := 0;
      assert lines[..0] == [];
      while i < |lines|
        invariant 0 <= i <= |lines|
        invariant Run(InitialState, lines[..i], p) == Success(State())
      {
        assert lines[..i + 1][..i] == lines[..i];
        err := ReadLine(lines[i], p);
        if err.Some? {
          RunPrefixFailure(InitialState, lines, i + 1, p);
          return;
        }
        i := i + 1;
      }
      assert lines[..i] == lines;
      err := None;
    }
  }

  /** `ImportOBJ`: the lines of the file (`None` when it does not exist), read one by
      one, then the last segment committed. */
  method ImportOBJ(file: Option<seq<string>>, p: Parsers) returns (r: Result<seq<ImportedMesh>, ImportError>)
    ensures r == Import(file, p)
    ensures r.Success? ==> forall m :: m in r.value ==> MeshWellFormed(m)
    ensures r.Success? ==> TotalIndices(r.value) == FileCorners(file.value)
  {
    if file.None? {
      return Failure(FileNotFound);
    }
    var importer := new Importer();
    var err := importer.ReadLines(file.value, p);
    if err.Some? {
      return Failure(err.value);
    }
    importer.CommitCurrentMesh();
    r := Success(importer.importedMeshes);
    ImportProperties(file, p);
  }
}
