/**
  The per-line rules of the Wavefront OBJ importer (Editor/OpenGolfSimOBJImport.cs):
  how a `v`, `vn`, `vt` or `f` line is read, how a face corner is resolved against
  the file-global tables, and how a face is cut into triangles with a reversed fan.
  Number parsing is supplied by the caller as `Parsers`.
*/
module ObjLines {
  import opened Wrappers
  import opened Strings
  import opened Geometry

  /** `float.Parse` and `int.Parse`; `None` stands for the exception they throw. */
  datatype Parsers = Parsers(parseFloat: string -> Option<real>, parseInt: string -> Option<int>)

  /** The exceptions that abort an import. */
  datatype ImportError =
    | FileNotFound            // the path does not exist
    | FormatError(token: string)  // a number did not parse
    | FieldMissing            // a `v`, `vn` or `vt` line has too few fields
    | IndexOutOfRange         // a face refers past the end of a table

  /** The file-global tables. Face indices are one-based into them. */
  datatype Tables = Tables(positions: seq<Vec3>, colors: seq<Color>, normals: seq<Vec3>, uvs: seq<Vec2>)

  const EmptyTables := Tables([], [], [], [])

  /** One resolved face corner: the data of one emitted vertex. */
  datatype Corner = Corner(position: Vec3, color: Color, uv: Vec2, normal: Vec3)

  /** The per-segment buffers `meshVertices`, `meshColors`, `meshUVs`, `meshNormals`
      and `meshTriangles`. */
  datatype Segment = Segment(vertices: seq<Vec3>, colors: seq<Color>, uvs: seq<Vec2>,
                             normals: seq<Vec3>, triangles: seq<int>)

  const EmptySegment := Segment([], [], [], [], [])

  /** The buffers have one entry per corner each, and no vertex is shared: the k-th
      triangle index is k. */
  predicate Aligned(s: Segment) {
    && |s.colors| == |s.vertices|
    && |s.uvs| == |s.vertices|
    && |s.normals| == |s.vertices|
    && |s.triangles| == |s.vertices|
    && forall k :: 0 <= k < |s.triangles| ==> s.triangles[k] == k
  }

  /** Field `k` of a split line, parsed as a float. */
  function FloatField(vals: seq<string>, k: nat, p: Parsers): Result<real, ImportError> {
    if k < |vals| then
      match p.parseFloat(vals[k])
      case Some(x) => Success(x)
      case None => Failure(FormatError(vals[k]))
    else
      Failure(FieldMissing)
  }

  /** Fields `1` up to `n - 1` are present and parse. */
  predicate FieldsParse(vals: seq<string>, n: nat, p: Parsers) {
    n <= |vals| && forall k :: 1 <= k < n ==> p.parseFloat(vals[k]).Some?
  }

  /** The colour of a `v x y z r g b` line: components above 1 anywhere mean the
      line uses the 0..255 range, and all three are rescaled. Alpha is always 1. */
  function RgbColor(r: real, g: real, b: real): (c: Color)
    ensures c.a == 1.0
    ensures (r <= 1.0 && g <= 1.0 && b <= 1.0) ==> c == Color(r, g, b, 1.0)
    ensures (r > 1.0 || g > 1.0 || b > 1.0) ==> c.r * 255.0 == r && c.g * 255.0 == g && c.b * 255.0 == b
    ensures (0.0 <= r <= 255.0 && 0.0 <= g <= 255.0 && 0.0 <= b <= 255.0) ==>
      0.0 <= c.r <= 1.0 && 0.0 <= c.g <= 1.0 && 0.0 <= c.b <= 1.0
  {
    if r > 1.0 || g > 1.0 || b > 1.0 then Color(r / 255.0, g / 255.0, b / 255.0, 1.0)
    else Color(r, g, b, 1.0)
  }

  /** A `v x y z [r g b]` line: the position with z negated, and its colour, white
      unless the line has at least seven fields. */
  function VertexLine(line: string, p: Parsers): (r: Result<(Vec3, Color), ImportError>)
    ensures var vals := SplitNonEmpty(line, ' ');
      && (r.Success? <==> FieldsParse(vals, if |vals| >= 7 then 7 else 4, p))
      && (|vals| < 4 ==> r.Failure?)
      && (r.Success? ==>
            && p.parseFloat(vals[1]) == Some(r.value.0.x)
            && p.parseFloat(vals[2]) == Some(r.value.0.y)
            && p.parseFloat(vals[3]) == Some(-r.value.0.z)
            && (|vals| < 7 ==> r.value.1 == White)
            && (|vals| >= 7 ==> r.value.1 == RgbColor(p.parseFloat(vals[4]).value,
                                                       p.parseFloat(vals[5]).value,
                                                       p.parseFloat(vals[6]).value)))
  {
    var vals := SplitNonEmpty(line, ' ');
    var x :- FloatField(vals, 1, p);
    var y :- FloatField(vals, 2, p);
    var z :- FloatField(vals, 3, p);
    if |vals| >= 7 then
      var cr :- FloatField(vals, 4, p);
      var cg :- FloatField(vals, 5, p);
      var cb :- FloatField(vals, 6, p);
      Success((MirrorZ(Vec3(x, y, z)), RgbColor(cr, cg, cb)))
    else
      Success((MirrorZ(Vec3(x, y, z)), White))
  }

  /** A `vn nx ny nz` line: the normal with z negated; further fields are ignored. */
  function NormalLine(line: string, p: Parsers): (r: Result<Vec3, ImportError>)
    ensures var vals := SplitNonEmpty(line, ' ');
      && (r.Success? <==> FieldsParse(vals, 4, p))
      && (r.Success? ==>
            && p.parseFloat(vals[1]) == Some(r.value.x)
            && p.parseFloat(vals[2]) == Some(r.value.y)
            && p.parseFloat(vals[3]) == Some(-r.value.z))
  {
    var vals := SplitNonEmpty(line, ' ');
    var x :- FloatField(vals, 1, p);
    var y :- FloatField(vals, 2, p);
    var z :- FloatField(vals, 3, p);
    Success(MirrorZ(Vec3(x, y, z)))
  }

  /** A `vt u v` line: the texture coordinate as written; further fields are ignored. */
  function UvLine(line: string, p: Parsers): (r: Result<Vec2, ImportError>)
    ensures var vals := SplitNonEmpty(line, ' ');
      && (r.Success? <==> FieldsParse(vals, 3, p))
      && (r.Success? ==>
            && p.parseFloat(vals[1]) == Some(r.value.x)
            && p.parseFloat(vals[2]) == Some(r.value.y))
  {
    var vals := SplitNonEmpty(line, ' ');
    var u :- FloatField(vals, 1, p);
    var v :- FloatField(vals, 2, p);
    Success(Vec2(u, v))
  }

  /** `int.Parse` of an index component. */
  function ParseIndex(token: string, p: Parsers): Result<int, ImportError> {
    match p.parseInt(token)
    case Some(n) => Success(n)
    case None => Failure(FormatError(token))
  }

  /** `table[n - 1]` for a one-based index `n`; a list index out of range throws. */
  function Lookup<T>(table: seq<T>, n: int): (r: Result<T, ImportError>)
    ensures r.Success? <==> 1 <= n <= |table|
    ensures r.Success? ==> r.value == table[n - 1]
    ensures r.Failure? ==> r.error == IndexOutOfRange
  {
    if 1 <= n <= |table| then Success(table[n - 1]) else Failure(IndexOutOfRange)
  }

  /** A `/`-separated component of a face corner that is present and not empty. */
  predicate HasComponent(indices: seq<string>, k: nat) {
    k < |indices| && indices[k] != ""
  }

  /** The uv or normal of a corner: looked up when its component is given, the
      default otherwise. */
  function OptionalLookup<T>(indices: seq<string>, k: nat, table: seq<T>, default: T, p: Parsers): Result<T, ImportError> {
    if HasComponent(indices, k) then
      var n :- ParseIndex(indices[k], p);
      Lookup(table, n)
    else
      Success(default)
  }

  /** One face corner `v[/vt[/vn]]`, resolved against the file-global tables in the
      order `ImportOBJ` reads them: position, colour, uv, normal. */
  function ResolveCorner(t: Tables, token: string, p: Parsers): Result<Corner, ImportError>
  {
    var indices := Split(token, '/');
    var n :- ParseIndex(indices[0], p);
    var position :- Lookup(t.positions, n);
    var color :- Lookup(t.colors, n);
    var uv :- OptionalLookup(indices, 1, t.uvs, Zero2, p);
    var normal :- OptionalLookup(indices, 2, t.normals, Up, p);
    Success(Corner(position, color, uv, normal))
  }

  /** Component `k` parses to a one-based index into a table of `size` entries. */
  predicate IndexIn(indices: seq<string>, k: nat, size: nat, p: Parsers) {
    k < |indices| && p.parseInt(indices[k]).Some? && 1 <= p.parseInt(indices[k]).value <= size
  }

  /** An optional component is absent, or parses to an index into the table. */
  predicate OptionalIndexIn(indices: seq<string>, k: nat, size: nat, p: Parsers) {
    !HasComponent(indices, k) || IndexIn(indices, k, size, p)
  }

  /** What a resolved corner is made of, and why a corner fails, checked in the order
      of `ResolveCorner`: the position index unparsable or out of range of the
      positions, then out of range of the colours, then the uv component, then the
      normal component, each unparsable or out of range; position and colour always
      come from the same slot; a missing uv or normal component gives
      `Vector2.zero` or `Vector3.up`. */
  lemma ResolveCornerRules(t: Tables, token: string, p: Parsers)
    ensures var indices := Split(token, '/'); var r := ResolveCorner(t, token, p);
      var positionOk := IndexIn(indices, 0, |t.positions|, p) && IndexIn(indices, 0, |t.colors|, p);
      var uvOk := OptionalIndexIn(indices, 1, |t.uvs|, p);
      && (r.Success? <==> positionOk && uvOk && OptionalIndexIn(indices, 2, |t.normals|, p))
      && (p.parseInt(indices[0]).None? ==> r == Failure(FormatError(indices[0])))
      && (p.parseInt(indices[0]).Some? && !(1 <= p.parseInt(indices[0]).value <= |t.positions|) ==>
            r == Failure(IndexOutOfRange))
      && (IndexIn(indices, 0, |t.positions|, p) && !IndexIn(indices, 0, |t.colors|, p) ==>
            r == Failure(IndexOutOfRange))
      && (positionOk && HasComponent(indices, 1) && p.parseInt(indices[1]).None? ==>
            r == Failure(FormatError(indices[1])))
      && (positionOk && HasComponent(indices, 1) && p.parseInt(indices[1]).Some? && !uvOk ==>
            r == Failure(IndexOutOfRange))
      && (positionOk && uvOk && HasComponent(indices, 2) && p.parseInt(indices[2]).None? ==>
            r == Failure(FormatError(indices[2])))
      && (positionOk && uvOk && HasComponent(indices, 2) && p.parseInt(indices[2]).Some? && !IndexIn(indices, 2, |t.normals|, p) ==>
            r == Failure(IndexOutOfRange))
      && (r.Success? ==> exists k :: (0 <= k < |t.positions| && k < |t.colors|
            && p.parseInt(indices[0]) == Some(k + 1)
            && r.value.position == t.positions[k] && r.value.color == t.colors[k]))
      && (r.Success? && !HasComponent(indices, 1) ==> r.value.uv == Zero2)
      && (r.Success? && HasComponent(indices, 1) ==> exists k :: (0 <= k < |t.uvs|
            && p.parseInt(indices[1]) == Some(k + 1) && r.value.uv == t.uvs[k]))
      && (r.Success? && !HasComponent(indices, 2) ==> r.value.normal == Up)
      && (r.Success? && HasComponent(indices, 2) ==> exists k :: (0 <= k < |t.normals|
            && p.parseInt(indices[2]) == Some(k + 1) && r.value.normal == t.normals[k]))
  {
  }

  /** The corner order of a face with `n` corners: the triangles `(i, i - 1, 0)` for
      `i` from `n - 1` down to `2`, a fan from corner 0 with reversed winding. */
  function FanOrder(n: nat): (order: seq<nat>)
    ensures |order| == if n < 3 then 0 else 3 * (n - 2)
    ensures forall k :: 0 <= k < |order| ==> order[k] < n
  {
    if n < 3 then [] else [n - 1, n - 2, 0] + FanOrder(n - 1)
  }

  /** Triangle `t` of the fan over `n` corners is `(n - 1 - t, n - 2 - t, 0)`. */
  lemma {:induction false} FanOrderTriangle(n: nat, t: nat)
    requires n >= 3 && t < n - 2
    ensures 3 * t + 3 <= |FanOrder(n)|
    ensures FanOrder(n)[3 * t] == n - 1 - t
    ensures FanOrder(n)[3 * t + 1] == n - 2 - t
    ensures FanOrder(n)[3 * t + 2] == 0
  {
    var order := FanOrder(n);
    var rest := FanOrder(n - 1);
    assert order == [n - 1, n - 2, 0] + rest;
    if t > 0 {
      FanOrderTriangle(n - 1, t - 1);
      var k := 3 * (t - 1);
      assert 3 * t == k + 3;
      assert order[k + 3] == rest[k] == n - 1 - t;
      assert order[k + 4] == rest[k + 1] == n - 2 - t;
      assert order[k + 5] == rest[k + 2] == 0;
    } else {
      assert order[0] == n - 1 && order[1] == n - 2 && order[2] == 0;
    }
  }

  /** The fan order grows one triangle `(i, i - 1, 0)` at a time. */
  lemma FanOrderPrefix(n: nat, i: nat)
    requires 2 <= i < n
    ensures 3 * (n - 1 - i) + 3 <= |FanOrder(n)|
    ensures FanOrder(n)[..3 * (n - 1 - i) + 3] == FanOrder(n)[..3 * (n - 1 - i)] + Triangle(i)
  {
    FanOrderTriangle(n, n - 1 - i);
  }

  /** The corners of a face, resolved in `order`; the first corner that fails to
      resolve aborts the face. */
  function ResolveAll(t: Tables, vals: seq<string>, order: seq<nat>, p: Parsers): (r: Result<seq<Corner>, ImportError>)
    requires forall k :: 0 <= k < |order| ==> order[k] < |vals|
    ensures r.Success? ==> |r.value| == |order|
  {
    if order == [] then Success([])
    else
      var last := |order| - 1;
      var init :- ResolveAll(t, vals, order[..last], p);
      var c :- ResolveCorner(t, vals[order[last]], p);
      Success(init + [c])
  }

  /** Corner `k` of a resolved face is what `ResolveCorner` makes of token
      `order[k]`. */
  lemma {:induction false} ResolveAllCorner(t: Tables, vals: seq<string>, order: seq<nat>, p: Parsers, k: nat)
    requires forall j :: 0 <= j < |order| ==> order[j] < |vals|
    requires ResolveAll(t, vals, order, p).Success? && k < |order|
    ensures ResolveCorner(t, vals[order[k]], p) == Success(ResolveAll(t, vals, order, p).value[k])
  {
    var last := |order| - 1;
    if k < last {
      ResolveAllCorner(t, vals, order[..last], p, k);
      assert order[..last][k] == order[k];
    }
  }

  /** A face that fails to resolve failed on one of its corners. */
  lemma {:induction false} ResolveAllFailure(t: Tables, vals: seq<string>, order: seq<nat>, p: Parsers)
    requires forall k :: 0 <= k < |order| ==> order[k] < |vals|
    requires ResolveAll(t, vals, order, p).Failure?
    ensures exists k :: 0 <= k < |order| && ResolveCorner(t, vals[order[k]], p) == Failure(ResolveAll(t, vals, order, p).error)
  {
    var last := |order| - 1;
    var init := ResolveAll(t, vals, order[..last], p);
    if init.Failure? {
      ResolveAllFailure(t, vals, order[..last], p);
      var k :| 0 <= k < last && ResolveCorner(t, vals[order[..last][k]], p) == Failure(init.error);
      assert order[..last][k] == order[k];
    }
  }

  /** Resolving `a + b` resolves `a` first, then `b`; the first failure wins. */
  lemma ResolveAllConcat(t: Tables, vals: seq<string>, a: seq<nat>, b: seq<nat>, p: Parsers)
    requires forall k :: 0 <= k < |a| ==> a[k] < |vals|
    requires forall k :: 0 <= k < |b| ==> b[k] < |vals|
    ensures var ra := ResolveAll(t, vals, a, p); var rb := ResolveAll(t, vals, b, p);
      var r := ResolveAll(t, vals, a + b, p);
      && (ra.Failure? ==> r == ra)
      && (ra.Success? && rb.Failure? ==> r == rb)
      && (ra.Success? && rb.Success? ==> r == Success(ra.value + rb.value))
  {
    ResolveAllChain(t, vals, a, b, p);
  }

  /** Two resolutions one after the other: the first failure, or both corner lists. */
  function Chain(ra: Result<seq<Corner>, ImportError>, rb: Result<seq<Corner>, ImportError>): Result<seq<Corner>, ImportError> {
    if ra.Failure? then ra else if rb.Failure? then rb else Success(ra.value + rb.value)
  }

  /** A resolution followed by one more corner. */
  function Then(r: Result<seq<Corner>, ImportError>, c: Result<Corner, ImportError>): Result<seq<Corner>, ImportError> {
    if r.Failure? then Failure(r.error) else if c.Failure? then Failure(c.error) else Success(r.value + [c.value])
  }

  /** Resolving one more corner after two chained resolutions is resolving it after
      the second. */
  lemma ChainThen(ra: Result<seq<Corner>, ImportError>, rb: Result<seq<Corner>, ImportError>, c: Result<Corner, ImportError>)
    ensures Then(Chain(ra, rb), c) == Chain(ra, Then(rb, c))
  {
    if ra.Success? && rb.Success? && c.Success? {
      assert ra.value + rb.value + [c.value] == ra.value + (rb.value + [c.value]);
    }
  }

  lemma {:induction false} ResolveAllChain(t: Tables, vals: seq<string>, a: seq<nat>, b: seq<nat>, p: Parsers)
    requires forall k :: 0 <= k < |a| ==> a[k] < |vals|
    requires forall k :: 0 <= k < |b| ==> b[k] < |vals|
    ensures ResolveAll(t, vals, a + b, p) == Chain(ResolveAll(t, vals, a, p), ResolveAll(t, vals, b, p))
    decreases |b|
  {
    if b == [] {
      assert a + b == a;
      var ra := ResolveAll(t, vals, a, p);
      if ra.Success? {
        assert ra.value + [] == ra.value;
      }
    } else {
      var last := |b| - 1;
      var front, j := b[..last], b[last];
      ResolveAllChain(t, vals, a, front, p);
      assert b == front + [j];
      assert a + b == (a + front) + [j];
      ResolveAllSnoc(t, vals, a + front, j, p);
      ResolveAllSnoc(t, vals, front, j, p);
      ChainThen(ResolveAll(t, vals, a, p), ResolveAll(t, vals, front, p), ResolveCorner(t, vals[j], p));
    }
  }

  /** Resolving one more corner after `init`. */
  lemma ResolveAllSnoc(t: Tables, vals: seq<string>, init: seq<nat>, j: nat, p: Parsers)
    requires forall k :: 0 <= k < |init| ==> init[k] < |vals|
    requires j < |vals|
    ensures ResolveAll(t, vals, init + [j], p) == Then(ResolveAll(t, vals, init, p), ResolveCorner(t, vals[j], p))
  {
    assert (init + [j])[..|init|] == init;
  }

  /** Resolving one more corner of the order: its failure is the failure of the
      longer prefix, its success extends the corners already resolved. */
  lemma ResolveAllExtend(t: Tables, vals: seq<string>, order: seq<nat>, m: nat, j: nat, p: Parsers)
    requires forall k :: 0 <= k < |order| ==> order[k] < |vals|
    requires m < |order| && order[m] == j && ResolveAll(t, vals, order[..m], p).Success?
    ensures var c := ResolveCorner(t, vals[j], p);
      && (c.Failure? ==> ResolveAll(t, vals, order[..m + 1], p) == Failure(c.error))
      && (c.Success? ==> ResolveAll(t, vals, order[..m + 1], p) == Success(ResolveAll(t, vals, order[..m], p).value + [c.value]))
  {
    assert order[..m + 1][..m] == order[..m];
  }

  /** One step of resolving `order` corner by corner: the next corner either extends
      the resolved prefix or is the failure of the whole of `order`. */
  lemma ResolveAllStep(t: Tables, vals: seq<string>, order: seq<nat>, m: nat, done: seq<Corner>, p: Parsers)
    requires forall k :: 0 <= k < |order| ==> order[k] < |vals|
    requires m < |order| && ResolveAll(t, vals, order[..m], p) == Success(done)
    ensures var c := ResolveCorner(t, vals[order[m]], p);
      && (c.Failure? ==> ResolveAll(t, vals, order, p) == Failure(c.error))
      && (c.Success? ==> ResolveAll(t, vals, order[..m + 1], p) == Success(done + [c.value]))
  {
    ResolveAllExtend(t, vals, order, m, order[m], p);
    if ResolveCorner(t, vals[order[m]], p).Failure? {
      ResolveAllPrefixFailure(t, vals, order, m + 1, p);
    }
  }

  /** A corner that fails to resolve decides the outcome of the whole face. */
  lemma {:induction false} ResolveAllPrefixFailure(t: Tables, vals: seq<string>, order: seq<nat>, m: nat, p: Parsers)
    requires forall k :: 0 <= k < |order| ==> order[k] < |vals|
    requires m <= |order| && ResolveAll(t, vals, order[..m], p).Failure?
    ensures ResolveAll(t, vals, order, p) == ResolveAll(t, vals, order[..m], p)
    decreases |order| - m
  {
    if m < |order| {
      assert order[..m + 1][..m] == order[..m];
      ResolveAllPrefixFailure(t, vals, order, m + 1, p);
    } else {
      assert order[..m] == order;
    }
  }

  /** Appending one corner: one entry in each buffer, whose triangle index is the slot
      of the vertex it just added. */
  function AddCorner(s: Segment, c: Corner): Segment {
    Segment(s.vertices + [c.position], s.colors + [c.color], s.uvs + [c.uv],
            s.normals + [c.normal], s.triangles + [|s.vertices|])
  }

  /** The vertex data in slot `i` of an aligned segment. */
  function CornerAt(s: Segment, i: nat): Corner
    requires Aligned(s) && i < |s.vertices|
  {
    Corner(s.vertices[i], s.colors[i], s.uvs[i], s.normals[i])
  }

  /** Appending corners one after the other: the old slots are kept and slot
      `|s.vertices| + k` holds corner `k`. */
  function Append(s: Segment, cs: seq<Corner>): (r: Segment)
    ensures |r.vertices| == |s.vertices| + |cs| && |r.colors| == |s.colors| + |cs|
    ensures |r.uvs| == |s.uvs| + |cs| && |r.normals| == |s.normals| + |cs|
    ensures |r.triangles| == |s.triangles| + |cs|
  {
    if cs == [] then s else AddCorner(Append(s, cs[..|cs| - 1]), cs[|cs| - 1])
  }

  /** The corner order `(i, i - 1, 0)` of triangle `i` of a fan. */
  function Triangle(i: nat): (order: seq<nat>)
    requires i >= 1
    ensures |order| == 3 && order[0] == i && order[1] == i - 1 && order[2] == 0
  {
    [i, i - 1, 0]
  }

  /** The three corners of fan triangle `i`, resolved. */
  function TriangleCorners(t: Tables, vals: seq<string>, i: nat, p: Parsers): (r: Result<seq<Corner>, ImportError>)
    requires 2 <= i < |vals|
    ensures r.Success? ==> |r.value| == 3
  {
    ResolveAll(t, vals, Triangle(i), p)
  }

  /** The corners of the first `m` slots of the fan over `vals`, resolved. */
  function FanPrefix(t: Tables, vals: seq<string>, m: nat, p: Parsers): Result<seq<Corner>, ImportError>
    requires m <= |FanOrder(|vals|)|
  {
    ResolveAll(t, vals, FanOrder(|vals|)[..m], p)
  }

  /** The whole fan is its longest prefix. */
  lemma FanPrefixAll(t: Tables, vals: seq<string>, p: Parsers)
    ensures FanPrefix(t, vals, |FanOrder(|vals|)|, p) == ResolveAll(t, vals, FanOrder(|vals|), p)
  {
    var order := FanOrder(|vals|);
    assert order[..|order|] == order;
  }

  /** Resolving the fan triangle by triangle: triangle `(i, i - 1, 0)` either extends
      the corners of the triangles before it or is the failure of the whole fan. */
  lemma FanStep(t: Tables, vals: seq<string>, i: nat, done: seq<Corner>, p: Parsers)
    requires 2 <= i < |vals|
    requires 3 * (|vals| - 1 - i) <= |FanOrder(|vals|)|
    requires FanPrefix(t, vals, 3 * (|vals| - 1 - i), p) == Success(done)
    ensures var tri := TriangleCorners(t, vals, i, p);
      && 3 * (|vals| - 1 - i) + 3 <= |FanOrder(|vals|)|
      && (tri.Failure? ==> ResolveAll(t, vals, FanOrder(|vals|), p) == Failure(tri.error))
      && (tri.Success? ==> FanPrefix(t, vals, 3 * (|vals| - 1 - i) + 3, p) == Success(done + tri.value))
  {
    var n := |vals|;
    var order := FanOrder(n);
    var m := 3 * (n - 1 - i);
    FanOrderPrefix(n, i);
    ResolveAllConcat(t, vals, order[..m], Triangle(i), p);
    if TriangleCorners(t, vals, i, p).Failure? {
      ResolveAllPrefixFailure(t, vals, order, m + 3, p);
    }
  }

  /** Appending one more corner is `AddCorner` on what was appended before. */
  lemma AppendSnoc(s: Segment, cs: seq<Corner>, c: Corner)
    ensures Append(s, cs + [c]) == AddCorner(Append(s, cs), c)
  {
    assert (cs + [c])[..|cs|] == cs;
  }

  /** Appending keeps every old entry of every buffer, and keeps a segment aligned. */
  lemma {:induction false} AppendKeeps(s: Segment, cs: seq<Corner>)
    ensures var r := Append(s, cs);
      && r.vertices[..|s.vertices|] == s.vertices && r.colors[..|s.colors|] == s.colors
      && r.uvs[..|s.uvs|] == s.uvs && r.normals[..|s.normals|] == s.normals
      && r.triangles[..|s.triangles|] == s.triangles
      && (Aligned(s) ==> Aligned(r))
  {
    if cs != [] {
      var last := |cs| - 1;
      AppendKeeps(s, cs[..last]);
      var before := Append(s, cs[..last]);
      var r := Append(s, cs);
      assert r.vertices[..|before.vertices|] == before.vertices;
      assert r.colors[..|before.colors|] == before.colors;
      assert r.uvs[..|before.uvs|] == before.uvs;
      assert r.normals[..|before.normals|] == before.normals;
      assert r.triangles[..|before.triangles|] == before.triangles;
      assert r.vertices[..|s.vertices|] == before.vertices[..|s.vertices|];
      assert r.colors[..|s.colors|] == before.colors[..|s.colors|];
      assert r.uvs[..|s.uvs|] == before.uvs[..|s.uvs|];
      assert r.normals[..|s.normals|] == before.normals[..|s.normals|];
      assert r.triangles[..|s.triangles|] == before.triangles[..|s.triangles|];
    }
  }

  /** Appending `x + y` is appending `x`, then `y`. */
  lemma {:induction false} AppendConcat(s: Segment, x: seq<Corner>, y: seq<Corner>)
    ensures Append(s, x + y) == Append(Append(s, x), y)
  {
    if y == [] {
      assert x + y == x;
    } else {
      var last := |y| - 1;
      AppendConcat(s, x, y[..last]);
      assert (x + y)[..|x + y| - 1] == x + y[..last];
    }
  }

  /** Slot `|s.vertices| + k` of an aligned segment holds corner `k` once `cs` has been
      appended. */
  lemma {:induction false} AppendSlot(s: Segment, cs: seq<Corner>, k: nat)
    requires Aligned(s) && k < |cs|
    ensures Aligned(Append(s, cs)) && CornerAt(Append(s, cs), |s.vertices| + k) == cs[k]
  {
    AppendKeeps(s, cs);
    var last := |cs| - 1;
    if k < last {
      AppendSlot(s, cs[..last], k);
      var before := Append(s, cs[..last]);
      assert CornerAt(before, |s.vertices| + k) == CornerAt(AddCorner(before, cs[last]), |s.vertices| + k);
    }
  }

  /** The corners of a face line `f c1 c2 ... cn`: the text after `f ` is trimmed and
      split at single spaces (so two spaces in a row make an empty corner). */
  function FaceTokens(line: string): seq<string>
    requires |line| >= 2
  {
    Split(Trim(line[2..]), ' ')
  }

  /** The segment after a face line: unchanged for fewer than three corners,
      otherwise the reversed fan's corners appended. */
  function AddFace(s: Segment, t: Tables, line: string, p: Parsers): Result<Segment, ImportError>
    requires |line| >= 2
  {
    var vals := FaceTokens(line);
    if |vals| < 3 then Success(s)
    else
      var cs :- ResolveAll(t, vals, FanOrder(|vals|), p);
      Success(Append(s, cs))
  }

  /** The number of corners a face line adds: `3 * (n - 2)` for `n >= 3` corners. */
  function FaceCornerCount(line: string): (c: nat)
    requires |line| >= 2
    ensures var n := |FaceTokens(line)|; c == if n < 3 then 0 else 3 * (n - 2)
  {
    |FanOrder(|FaceTokens(line)|)|
  }

  /** A face line with `n >= 3` corners adds `n - 2` triangles: `3 * (n - 2)` entries
      to every buffer, the old entries untouched and no vertex shared. A face with
      fewer corners changes nothing. */
  lemma AddFaceSize(s: Segment, t: Tables, line: string, p: Parsers)
    requires |line| >= 2 && Aligned(s)
    requires AddFace(s, t, line, p).Success?
    ensures var r := AddFace(s, t, line, p).value;
      && Aligned(r)
      && |r.triangles| == |s.triangles| + FaceCornerCount(line)
      && r.vertices[..|s.vertices|] == s.vertices
      && r.triangles[..|s.triangles|] == s.triangles
      && (|FaceTokens(line)| < 3 ==> r == s)
  {
    var vals := FaceTokens(line);
    if |vals| >= 3 {
      var cs := ResolveAll(t, vals, FanOrder(|vals|), p).value;
      assert AddFace(s, t, line, p).value == Append(s, cs);
      AppendKeeps(s, cs);
    }
  }

  /** Slot `base + i` of the appended face holds corner `i` of the fan order. */
  lemma FanCornerSlot(s: Segment, t: Tables, vals: seq<string>, p: Parsers, i: nat, j: nat)
    requires Aligned(s) && i < |FanOrder(|vals|)| && FanOrder(|vals|)[i] == j < |vals|
    requires ResolveAll(t, vals, FanOrder(|vals|), p).Success?
    ensures var r := Append(s, ResolveAll(t, vals, FanOrder(|vals|), p).value);
      && Aligned(r)
      && |s.vertices| + i < |r.vertices|
      && ResolveCorner(t, vals[j], p) == Success(CornerAt(r, |s.vertices| + i))
  {
    var cs := ResolveAll(t, vals, FanOrder(|vals|), p).value;
    ResolveAllCorner(t, vals, FanOrder(|vals|), p, i);
    AppendKeeps(s, cs);
    AppendSlot(s, cs, i);
  }

  /** Triangle `k` of the reversed fan over corners `vals`, once appended after the
      slots of `s`, occupies slots `base + 3 * k` up to `base + 3 * k + 2`. */
  lemma FanTriangleSlots(s: Segment, t: Tables, vals: seq<string>, p: Parsers, k: nat)
    requires Aligned(s) && |vals| >= 3 && k < |vals| - 2
    requires ResolveAll(t, vals, FanOrder(|vals|), p).Success?
    ensures var r := Append(s, ResolveAll(t, vals, FanOrder(|vals|), p).value);
      var n := |vals|; var base := |s.vertices|;
      && Aligned(r)
      && base + 3 * k + 2 < |r.vertices|
      && ResolveCorner(t, vals[n - 1 - k], p) == Success(CornerAt(r, base + 3 * k))
      && ResolveCorner(t, vals[n - 2 - k], p) == Success(CornerAt(r, base + 3 * k + 1))
      && ResolveCorner(t, vals[0], p) == Success(CornerAt(r, base + 3 * k + 2))
  {
    FanOrderTriangle(|vals|, k);
    FanCornerSlot(s, t, vals, p, 3 * k, |vals| - 1 - k);
    FanCornerSlot(s, t, vals, p, 3 * k + 1, |vals| - 2 - k);
    FanCornerSlot(s, t, vals, p, 3 * k + 2, 0);
  }
}
