/**
  `OpenGolfSimImportWindow.ScanAndGroupObjFiles` (Editor/OpenGolfSimImportWindow.cs):
  the scanned `.obj` paths of a folder are grouped by the lower-cased prefix of their
  file name, and each new group gets a default material from the first keyword its
  prefix contains. The folder listing enters as the sequence of paths it returned;
  the window's material assets are the values of `Material`.
*/
module ImportWindow {
  import opened Wrappers
  import opened Strings

  /** The default materials the window loads when it opens. */
  datatype Material = Fairway | Fringe | Green | Rough | FirstCut | Tee | Sand | River

  predicate IsSeparator(c: char) {
    c == '/' || c == '\\'
  }

  /** `Path.GetFileName`: the text after the last directory separator. */
  function FileName(path: string): (name: string)
    ensures |name| <= |path| && name == path[|path| - |name|..]
  {
    if path == [] then []
    else if IsSeparator(path[|path| - 1]) then []
    else FileName(path[..|path| - 1]) + [path[|path| - 1]]
  }

  /** The file name is the whole tail of the path after its last separator. */
  lemma {:induction false} FileNameRule(path: string)
    ensures var name := FileName(path);
      && (forall i :: 0 <= i < |name| ==> !IsSeparator(name[i]))
      && (|name| < |path| ==> IsSeparator(path[|path| - |name| - 1]))
  {
    if path != [] && !IsSeparator(path[|path| - 1]) {
      var front := path[..|path| - 1];
      FileNameRule(front);
      assert |FileName(front)| < |front| ==> path[|path| - |FileName(path)| - 1] == front[|front| - |FileName(front)| - 1];
    }
  }

  /** The index of the last `c` in `s`, if any. */
  function LastIndexOf(s: string, c: char): (r: Option<nat>)
    ensures r.Some? ==> r.value < |s| && s[r.value] == c && forall i :: r.value < i < |s| ==> s[i] != c
    ensures r.None? ==> c !in s
  {
    if s == [] then None
    else if s[|s| - 1] == c then Some(|s| - 1)
    else
      var r := LastIndexOf(s[..|s| - 1], c);
      assert s == s[..|s| - 1] + [s[|s| - 1]];
      r
  }

  /** `Path.GetFileNameWithoutExtension`: the file name up to its last `.`. */
  function FileNameWithoutExtension(path: string): string {
    var name := FileName(path);
    match LastIndexOf(name, '.')
    case None => name
    case Some(dot) => name[..dot]
  }

  /** `fileName.Split('_')` and the choice of prefix: the first piece when there is
      more than one, otherwise the whole name. */
  function GroupPrefix(fileName: string): string {
    var parts := Split(fileName, '_');
    if |parts| > 1 then parts[0] else fileName
  }

  /** The group key of a scanned path. */
  function PrefixOf(path: string): string {
    GroupPrefix(ToLower(FileNameWithoutExtension(path)))
  }

  /** The prefix is the name up to its first `_`, or the whole name without one. */
  lemma GroupPrefixRule(fileName: string)
    ensures var prefix := GroupPrefix(fileName);
      && StartsWith(fileName, prefix)
      && '_' !in prefix
      && ('_' in fileName ==> |prefix| < |fileName| && fileName[|prefix|] == '_')
      && ('_' !in fileName ==> prefix == fileName)
  {
    SplitFirstPiece(fileName, '_');
    SplitPiecesFree(fileName, '_');
    if '_' !in fileName {
      SplitWithoutSeparator(fileName, '_');
    }
  }

  /** The keywords that choose a default material, in the order they are tried. */
  const Keywords: seq<(string, Material)> := [
    ("fairway", Fairway), ("green", Green), ("rough", Rough), ("first", FirstCut),
    ("fringe", Fringe), ("tee", Tee), ("sand", Sand), ("river", River)]

  /** The material a new group starts with: tested keyword by keyword, the first one
      the prefix contains wins; none leaves the group without a material. */
  function DefaultMaterial(prefix: string): Option<Material> {
    if Contains(prefix, "fairway") then Some(Fairway)
    else if Contains(prefix, "green") then Some(Green)
    else if Contains(prefix, "rough") then Some(Rough)
    else if Contains(prefix, "first") then Some(FirstCut)
    else if Contains(prefix, "fringe") then Some(Fringe)
    else if Contains(prefix, "tee") then Some(Tee)
    else if Contains(prefix, "sand") then Some(Sand)
    else if Contains(prefix, "river") then Some(River)
    else None
  }

  /** The material of the first keyword in `ks` the prefix contains. */
  function FirstKeyword(prefix: string, ks: seq<(string, Material)>): Option<Material> {
    if ks == [] then None
    else if Contains(prefix, ks[0].0) then Some(ks[0].1)
    else FirstKeyword(prefix, ks[1..])
  }

  /** Keyword `i` is the first one of `ks` that the prefix contains. */
  predicate FirstMatchAt(prefix: string, ks: seq<(string, Material)>, i: nat) {
    i < |ks| && Contains(prefix, ks[i].0) && forall j :: 0 <= j < i ==> !Contains(prefix, ks[j].0)
  }

  /** `FirstKeyword` picks keyword `i` exactly when it is the first one the prefix
      contains, and picks nothing exactly when the prefix contains none. */
  lemma {:induction false} FirstKeywordRule(prefix: string, ks: seq<(string, Material)>)
    ensures forall i: nat :: FirstMatchAt(prefix, ks, i) ==> FirstKeyword(prefix, ks) == Some(ks[i].1)
    ensures FirstKeyword(prefix, ks).None? <==> forall i :: 0 <= i < |ks| ==> !Contains(prefix, ks[i].0)
    ensures FirstKeyword(prefix, ks).Some? ==>
      exists i: nat :: FirstMatchAt(prefix, ks, i) && FirstKeyword(prefix, ks) == Some(ks[i].1)
  {
    if ks != [] {
      var rest := ks[1..];
      FirstKeywordRule(prefix, rest);
      forall i: nat | 0 < i && FirstMatchAt(prefix, ks, i)
        ensures FirstKeyword(prefix, ks) == Some(ks[i].1)
      {
        assert rest[i - 1] == ks[i];
        forall j | 0 <= j < i - 1 ensures !Contains(prefix, rest[j].0) {
          assert rest[j] == ks[j + 1];
        }
        assert FirstMatchAt(prefix, rest, i - 1);
      }
      if Contains(prefix, ks[0].0) {
        assert FirstMatchAt(prefix, ks, 0);
      } else if FirstKeyword(prefix, ks).Some? {
        var i: nat :| FirstMatchAt(prefix, rest, i) && FirstKeyword(prefix, rest) == Some(rest[i].1);
        forall j | 0 <= j < i + 1 ensures !Contains(prefix, ks[j].0) {
          if j > 0 {
            assert ks[j] == rest[j - 1];
          }
        }
        assert FirstMatchAt(prefix, ks, i + 1);
      }
      if forall i :: 0 <= i < |ks| ==> !Contains(prefix, ks[i].0) {
        forall i | 0 <= i < |rest| ensures !Contains(prefix, rest[i].0) {
          assert rest[i] == ks[i + 1];
        }
      }
    }
  }

  /** The if-chain of the window is the keyword list tried in order. */
  lemma DefaultMaterialByPriority(prefix: string)
    ensures DefaultMaterial(prefix) == FirstKeyword(prefix, Keywords)
  {
    var ks := Keywords;
    assert FirstKeyword(prefix, ks[8..]) == None;
    assert FirstKeyword(prefix, ks[7..]) == if Contains(prefix, "river") then Some(River) else None;
    assert FirstKeyword(prefix, ks[6..]) == if Contains(prefix, "sand") then Some(Sand) else FirstKeyword(prefix, ks[7..]);
    assert FirstKeyword(prefix, ks[5..]) == if Contains(prefix, "tee") then Some(Tee) else FirstKeyword(prefix, ks[6..]);
    assert FirstKeyword(prefix, ks[4..]) == if Contains(prefix, "fringe") then Some(Fringe) else FirstKeyword(prefix, ks[5..]);
    assert FirstKeyword(prefix, ks[3..]) == if Contains(prefix, "first") then Some(FirstCut) else FirstKeyword(prefix, ks[4..]);
    assert FirstKeyword(prefix, ks[2..]) == if Contains(prefix, "rough") then Some(Rough) else FirstKeyword(prefix, ks[3..]);
    assert FirstKeyword(prefix, ks[1..]) == if Contains(prefix, "green") then Some(Green) else FirstKeyword(prefix, ks[2..]);
    assert FirstKeyword(prefix, ks) == if Contains(prefix, "fairway") then Some(Fairway) else FirstKeyword(prefix, ks[1..]);
  }

  /** The distinct keys of `files`, in the order they first occur: the order in which
      the dictionary receives its keys. */
  function GroupKeys(files: seq<string>, keyOf: string -> string): (keys: seq<string>)
    ensures |keys| <= |files|
  {
    if files == [] then []
    else
      var keys := GroupKeys(files[..|files| - 1], keyOf);
      var key := keyOf(files[|files| - 1]);
      if key in keys then keys else keys + [key]
  }

  predicate Distinct(s: seq<string>) {
    forall i, j :: 0 <= i < j < |s| ==> s[i] != s[j]
  }

  /** The paths of `files` whose key is `key`, in scan order. */
  function PathsWith(files: seq<string>, keyOf: string -> string, key: string): (paths: seq<string>)
    ensures |paths| <= |files|
  {
    if files == [] then []
    else
      var last := files[|files| - 1];
      PathsWith(files[..|files| - 1], keyOf, key) + if keyOf(last) == key then [last] else []
  }

  /** The group keys are pairwise different and are exactly the keys of the scanned
      paths. */
  lemma {:induction false} GroupKeysRule(files: seq<string>, keyOf: string -> string)
    ensures Distinct(GroupKeys(files, keyOf))
    ensures forall k :: k in GroupKeys(files, keyOf) <==> exists j :: 0 <= j < |files| && keyOf(files[j]) == k
  {
    if files != [] {
      var front := files[..|files| - 1];
      GroupKeysRule(front, keyOf);
      var keys := GroupKeys(front, keyOf);
      var key := keyOf(files[|files| - 1]);
      assert Distinct(keys);
      if key !in keys {
        var all := keys + [key];
        forall i, j | 0 <= i < j < |all|
          ensures all[i] != all[j]
        {
          assert all[i] == keys[i];
          if j == |keys| {
            assert keys[i] in keys;
          } else {
            assert all[j] == keys[j];
          }
        }
        assert Distinct(all);
      }
      forall k | k in GroupKeys(files, keyOf)
        ensures exists j :: 0 <= j < |files| && keyOf(files[j]) == k
      {
        if k in GroupKeys(front, keyOf) {
          var j :| 0 <= j < |front| && keyOf(front[j]) == k;
          assert files[j] == front[j];
        } else {
          assert keyOf(files[|files| - 1]) == k;
        }
      }
      forall j | 0 <= j < |files|
        ensures keyOf(files[j]) in GroupKeys(files, keyOf)
      {
        if j < |front| {
          assert files[j] == front[j];
        }
      }
    }
  }

  /** A path is listed under a key exactly when that is its key. */
  lemma {:induction false} PathsWithRule(files: seq<string>, keyOf: string -> string, key: string)
    ensures forall p :: p in PathsWith(files, keyOf, key) ==> p in files && keyOf(p) == key
    ensures forall j :: 0 <= j < |files| && keyOf(files[j]) == key ==> files[j] in PathsWith(files, keyOf, key)
  {
    if files != [] {
      var front := files[..|files| - 1];
      var last := files[|files| - 1];
      PathsWithRule(front, keyOf, key);
      assert files == front + [last];
      forall j | 0 <= j < |front| && keyOf(files[j]) == key
        ensures files[j] in PathsWith(files, keyOf, key)
      {
        assert files[j] == front[j];
      }
    }
  }

  /** Grouping distributes over concatenation: the paths scanned later come after the
      earlier ones in every group, so each group keeps the scan order. */
  lemma {:induction false} PathsWithConcat(a: seq<string>, b: seq<string>, keyOf: string -> string, key: string)
    ensures PathsWith(a + b, keyOf, key) == PathsWith(a, keyOf, key) + PathsWith(b, keyOf, key)
    decreases |b|
  {
    if b != [] {
      var front := b[..|b| - 1];
      var last := b[|b| - 1];
      assert (a + b)[..|a + b| - 1] == a + front;
      assert (a + b)[|a + b| - 1] == last;
      PathsWithConcat(a, front, keyOf, key);
      var tail := if keyOf(last) == key then [last] else [];
      var pa, pf := PathsWith(a, keyOf, key), PathsWith(front, keyOf, key);
      assert PathsWith(a + b, keyOf, key) == PathsWith(a + front, keyOf, key) + tail;
      assert PathsWith(b, keyOf, key) == pf + tail;
      assert pa + pf + tail == pa + (pf + tail);
    } else {
      assert a + b == a;
    }
  }

  /** Scanning one more path adds its key at the end unless the key is already there. */
  lemma GroupKeysAppend(seen: seq<string>, objPath: string, keyOf: string -> string)
    ensures var keys := GroupKeys(seen, keyOf); var key := keyOf(objPath);
      GroupKeys(seen + [objPath], keyOf) == if key in keys then keys else keys + [key]
  {
    assert (seen + [objPath])[..|seen|] == seen;
  }

  /** Scanning one more path appends it to the group of its key and leaves every
      other group as it was. */
  lemma PathsWithAppend(seen: seq<string>, objPath: string, keyOf: string -> string, key: string)
    ensures PathsWith(seen + [objPath], keyOf, key)
      == PathsWith(seen, keyOf, key) + if keyOf(objPath) == key then [objPath] else []
  {
    assert (seen + [objPath])[..|seen|] == seen;
  }

  /** A key no scanned path has lists no path. */
  lemma {:induction false} PathsWithNone(files: seq<string>, keyOf: string -> string, key: string)
    requires key !in GroupKeys(files, keyOf)
    ensures PathsWith(files, keyOf, key) == []
  {
    if files != [] {
      var front := files[..|files| - 1];
      assert key !in GroupKeys(front, keyOf);
      PathsWithNone(front, keyOf, key);
    }
  }

  /** The sizes of the groups under `keys`. */
  function GroupSizes(files: seq<string>, keyOf: string -> string, keys: seq<string>): nat {
    if keys == [] then 0 else |PathsWith(files, keyOf, keys[0])| + GroupSizes(files, keyOf, keys[1..])
  }

  /** Every scanned path is in exactly one group: together the groups hold as many
      paths as were scanned. */
  lemma {:induction false} GroupsPartition(files: seq<string>, keyOf: string -> string)
    ensures GroupSizes(files, keyOf, GroupKeys(files, keyOf)) == |files|
  {
    if files != [] {
      var front := files[..|files| - 1];
      var last := files[|files| - 1];
      assert files == front + [last];
      GroupsPartition(front, keyOf);
      var keys := GroupKeys(front, keyOf);
      GroupKeysRule(front, keyOf);
      SizesStep(front, last, keyOf, keys);
      if keyOf(last) !in keys {
        SizesAppend(files, keyOf, keys, keyOf(last));
        PathsWithNone(front, keyOf, keyOf(last));
      }
    }
  }

  /** Adding a path to the scan adds one to the groups of the keys that include its
      key. */
  lemma {:induction false} SizesStep(front: seq<string>, last: string, keyOf: string -> string, keys: seq<string>)
    requires forall i, j :: 0 <= i < j < |keys| ==> keys[i] != keys[j]
    ensures GroupSizes(front + [last], keyOf, keys) == GroupSizes(front, keyOf, keys) + if keyOf(last) in keys then 1 else 0
  {
    if keys != [] {
      var files := front + [last];
      assert files[..|files| - 1] == front;
      SizesStep(front, last, keyOf, keys[1..]);
      assert keyOf(last) in keys[1..] <==> keyOf(last) in keys && keyOf(last) != keys[0];
    }
  }

  lemma {:induction false} SizesAppend(files: seq<string>, keyOf: string -> string, keys: seq<string>, key: string)
    ensures GroupSizes(files, keyOf, keys + [key]) == GroupSizes(files, keyOf, keys) + |PathsWith(files, keyOf, key)|
  {
    if keys != [] {
      assert (keys + [key])[1..] == keys[1..] + [key];
      SizesAppend(files, keyOf, keys[1..], key);
    }
  }

  /** `ObjImportGroup`: a prefix, its paths and the material they will get. */
  class ObjImportGroup {
    var prefix: string
    var objPaths: seq<string>
    var assignedMaterial: Option<Material>

    constructor (prefix: string)
      ensures this.prefix == prefix && objPaths == [] && assignedMaterial == None
    {
      this.prefix := prefix;
      objPaths := [];
      assignedMaterial := None;
    }
  }

  /** `groupDict` holds one group per key of `order`, each with its own prefix, the
      paths of `seen` under that key in scan order and the default material of the
      key, and no group is shared between two keys. */
  ghost predicate Holds(groupDict: map<string, ObjImportGroup>, order: seq<string>, seen: seq<string>, keyOf: string -> string)
    reads groupDict.Values
  {
    && (forall k :: k in groupDict <==> k in order)
    && (forall k :: k in groupDict ==> groupDict[k].prefix == k)
    && (forall k :: k in groupDict ==> groupDict[k].objPaths == PathsWith(seen, keyOf, k))
    && (forall k :: k in groupDict ==> groupDict[k].assignedMaterial == DefaultMaterial(k))
    && (forall k, k' :: k in groupDict && k' in groupDict && k != k' ==> groupDict[k] != groupDict[k'])
  }

  /** `groupDict` and `order` (the keys in the order the dictionary received them)
      hold the groups of the paths in `seen`. */
  ghost predicate Grouped(groupDict: map<string, ObjImportGroup>, order: seq<string>, seen: seq<string>, keyOf: string -> string)
    reads groupDict.Values
  {
    order == GroupKeys(seen, keyOf) && Holds(groupDict, order, seen, keyOf)
  }

  /** The `TryGetValue` of the scanning loop: the group of `prefix`, created with the
      default material of the prefix and added to the dictionary when there is none
      yet. */
  method FindOrCreate(groupDict: map<string, ObjImportGroup>, order: seq<string>, ghost seen: seq<string>,
                      keyOf: string -> string, prefix: string)
    returns (groupDict': map<string, ObjImportGroup>, order': seq<string>, group: ObjImportGroup)
    requires Grouped(groupDict, order, seen, keyOf)
    ensures Holds(groupDict', order', seen, keyOf)
    ensures order' == if prefix in order then order else order + [prefix]
    ensures prefix in groupDict' && group == groupDict'[prefix]
    ensures forall k :: k in groupDict ==> k in groupDict' && groupDict'[k] == groupDict[k]
    ensures prefix !in groupDict ==> fresh(group)
  {
    if prefix in groupDict {
      groupDict', order', group := groupDict, order, groupDict[prefix];
    } else {
      group := new ObjImportGroup(prefix);
      group.assignedMaterial := DefaultMaterial(prefix);
      PathsWithNone(seen, keyOf, prefix);
      groupDict' := groupDict[prefix := group];
      order' := order + [prefix];
    }
  }

  /** One turn of the scanning loop: the path is appended to the group of its key. */
  method AddPath(groupDict: map<string, ObjImportGroup>, order: seq<string>, ghost seen: seq<string>,
                 objPath: string, keyOf: string -> string)
    returns (groupDict': map<string, ObjImportGroup>, order': seq<string>)
    requires Grouped(groupDict, order, seen, keyOf)
    modifies groupDict.Values`objPaths
    ensures Grouped(groupDict', order', seen + [objPath], keyOf)
    ensures forall k :: k in groupDict ==> k in groupDict' && groupDict'[k] == groupDict[k]
    ensures forall k :: k in groupDict' && k !in groupDict ==> fresh(groupDict'[k])
  {
    var prefix := keyOf(objPath);
    var group;
    groupDict', order', group := FindOrCreate(groupDict, order, seen, keyOf, prefix);
    label added:
    group.objPaths := group.objPaths + [objPath];
    forall k | k in groupDict'
      ensures groupDict'[k].objPaths == PathsWith(seen + [objPath], keyOf, k)
      ensures groupDict'[k].prefix == k && groupDict'[k].assignedMaterial == DefaultMaterial(k)
    {
      PathsWithAppend(seen, objPath, keyOf, k);
      if k != prefix {
        assert groupDict'[k] != group;
      }
    }
    GroupKeysAppend(seen, objPath, keyOf);
  }

  /** The scanning loop of `ScanAndGroupObjFiles`: every path in turn goes into the
      group of its key. The dictionary and the order its keys arrived in come back;
      every group is new. */
  method GroupPaths(objFiles: seq<string>, keyOf: string -> string)
    returns (groupDict: map<string, ObjImportGroup>, order: seq<string>)
    ensures Grouped(groupDict, order, objFiles, keyOf)
    ensures forall k :: k in groupDict ==> fresh(groupDict[k])
  {
    groupDict, order := map[], [];
    for n := 0 to |objFiles|
      invariant Grouped(groupDict, order, objFiles[..n], keyOf)
      invariant forall k :: k in groupDict ==> fresh(groupDict[k])
    {
      assert objFiles[..n + 1] == objFiles[..n] + [objFiles[n]];
      groupDict, order := AddPath(groupDict, order, objFiles[..n], objFiles[n], keyOf);
    }
    assert objFiles[..|objFiles|] == objFiles;
  }

  /** The part of `OpenGolfSimImportWindow` that scanning changes. */
  class ImportGroups {
    var objImportGroups: seq<ObjImportGroup>

    constructor ()
      ensures objImportGroups == []
    {
      objImportGroups := [];
    }

    /** `ScanAndGroupObjFiles` over the paths the folder listing returned: the old
        groups are dropped, and there is one new group per distinct prefix, in the
        order the prefixes first occur, holding the paths with that prefix in scan
        order and the default material of the prefix. */
    method ScanAndGroupObjFiles(objFiles: seq<string>)
      modifies this
      ensures var keys := GroupKeys(objFiles, PrefixOf);
        && |objImportGroups| == |keys|
        && forall i :: 0 <= i < |keys| ==>
          && objImportGroups[i].prefix == keys[i]
          && objImportGroups[i].objPaths == PathsWith(objFiles, PrefixOf, keys[i])
          && objImportGroups[i].assignedMaterial == DefaultMaterial(keys[i])
      ensures forall i :: 0 <= i < |objImportGroups| ==> fresh(objImportGroups[i])
      ensures forall i, j :: 0 <= i < j < |objImportGroups| ==> objImportGroups[i] != objImportGroups[j]
    {
      objImportGroups := [];
      var groupDict, order := GroupPaths(objFiles, PrefixOf);
      GroupKeysRule(objFiles, PrefixOf);
      objImportGroups := seq(|order|, i requires 0 <= i < |order| => groupDict[order[i]]);
    }
  }
}
