/**
 The crash-safe tree swap of scripts/sync-runtime.py.

 A source tree is copied beside the target, without the ignored names, and renamed into place. Trees are
 values; a removal or a copy that is under way may leave any partial tree, while a rename is atomic.
 Symbolic links and permissions are not part of this model, and a digest is any function of the content.
 */
module SyncRuntime {
  import opened Prelude

  type Content = seq<nat>
  type Path = seq<string>

  datatype Node = File(content: Content) | Dir(entries: map<string, Node>)

  type Tree = node: Node | node.Dir? witness Dir(map[])

  // ---------------------------------------------------------------- ignored names

  const IGNORED_NAMES := {".DS_Store", ".pytest_cache", ".ruff_cache", "__pycache__"}

  predicate EndsWith(name: string, suffix: string) {
    |suffix| <= |name| && name[|name| - |suffix|..] == suffix
  }

  lemma EndsWithIff(name: string, suffix: string)
    ensures EndsWith(name, suffix) <==> exists stem :: name == stem + suffix
  {
    if EndsWith(name, suffix) { assert name == name[..|name| - |suffix|] + suffix; }
  }

  predicate IgnoredName(name: string) { name in IGNORED_NAMES || EndsWith(name, ".pyc") }

  /** A path is ignored when any of its parts is. */
  predicate Ignored(path: Path) { exists i :: 0 <= i < |path| && IgnoredName(path[i]) }

  lemma IgnoredParts(path: Path)
    requires path != []
    ensures Ignored(path) <==> IgnoredName(path[0]) || Ignored(path[1..])
  {
    if Ignored(path) && !IgnoredName(path[0]) {
      var i :| 0 <= i < |path| && IgnoredName(path[i]);
      assert path[1..][i - 1] == path[i];
    }
    if Ignored(path[1..]) {
      var i :| 0 <= i < |path[1..]| && IgnoredName(path[1..][i]);
      assert path[i + 1] == path[1..][i];
    }
  }

  // ---------------------------------------------------------------- trees

  function Resolve(node: Node, path: Path): Option<Node> {
    if path == [] then Some(node)
    else if node.File? || path[0] !in node.entries then None
    else Resolve(node.entries[path[0]], path[1..])
  }

  /** The copy of a tree: in each directory the ignored names are left out. */
  function Copy(node: Node): (copy: Node)
    ensures copy.Dir? == node.Dir?
  {
    match node
    case File(content) => node
    case Dir(entries) => Dir(map name | name in entries && !IgnoredName(name) :: Copy(entries[name]))
  }

  /** Leaving out names directory by directory leaves out exactly the paths with an ignored part. */
  lemma {:induction false} CopyResolves(node: Node, path: Path)
    ensures Resolve(Copy(node), path) ==
            if Ignored(path) || Resolve(node, path).None? then None else Some(Copy(Resolve(node, path).value))
  {
    if path != [] {
      IgnoredParts(path);
      if node.Dir? && path[0] in node.entries && !IgnoredName(path[0]) {
        CopyResolves(node.entries[path[0]], path[1..]);
      }
    }
  }

  function FileAt(root: Option<Node>, path: Path): Option<Content> {
    if root.None? then None
    else
      var node := Resolve(root.value, path);
      if node.Some? && node.value.File? && path != [] then Some(node.value.content) else None
  }

  // ---------------------------------------------------------------- digests and their difference

  /** `listing` is what walking the root yields: every path below it, in any order. */
  ghost predicate Walks(listing: seq<Path>, root: Node) {
    forall path :: path in listing <==> path != [] && Resolve(root, path).Some?
  }

  /** The digests of the files below the root that are not ignored. */
  ghost predicate Describes(files: map<Path, string>, root: Option<Node>, digest: Content -> string) {
    && (forall path :: path in files <==> !Ignored(path) && FileAt(root, path).Some?)
    && (forall path :: path in files ==> files[path] == digest(FileAt(root, path).value))
  }

  method FileDigests(root: Option<Node>, listing: seq<Path>, digest: Content -> string) returns (files: map<Path, string>)
    requires root.Some? ==> Walks(listing, root.value)
    ensures Describes(files, root, digest)
  {
    files := map[];
    if root.None? { return; }
    for k := 0 to |listing|
      invariant forall path :: path in files <==> path in listing[..k] && !Ignored(path) && FileAt(root, path).Some?
      invariant forall path :: path in files ==> files[path] == digest(FileAt(root, path).value)
    {
      var file := FileAt(root, listing[k]);
      if Ignored(listing[k]) || file.None? { continue; }
      files := files[listing[k] := digest(file.value)];
    }
    assert listing[..|listing|] == listing;
  }

  datatype RuntimeDiff = RuntimeDiff(missing: set<Path>, extra: set<Path>, changed: set<Path>) {
    predicate InSync() { missing == {} && extra == {} && changed == {} }
  }

  function Diff(source: map<Path, string>, current: map<Path, string>): (diff: RuntimeDiff)
    ensures diff.InSync() <==> source == current
    ensures forall path :: path in diff.missing <==> path in source && path !in current
    ensures forall path :: path in diff.extra <==> path in current && path !in source
    ensures forall path :: path in diff.changed <==> path in source && path in current && source[path] != current[path]
  {
    var diff := RuntimeDiff(
      source.Keys - current.Keys,
      current.Keys - source.Keys,
      set path | path in source.Keys && path in current.Keys && source[path] != current[path]);
    assert diff.InSync() ==> source.Keys <= current.Keys && current.Keys <= source.Keys by {
      if diff.InSync() {
        assert forall path :: path in source.Keys ==> path in current.Keys || path in diff.missing;
        assert forall path :: path in current.Keys ==> path in source.Keys || path in diff.extra;
      }
    }
    assert diff.InSync() ==> forall path :: path in source && path in current && source[path] != current[path] ==> path in diff.changed;
    diff
  }

  /** In sync: the same files with the same digests, whatever else the two trees hold. */
  ghost predicate SameFiles(source: Option<Node>, target: Option<Node>, digest: Content -> string) {
    forall path :: !Ignored(path) ==>
      var s := FileAt(source, path);
      var t := FileAt(target, path);
      s.Some? == t.Some? && (s.Some? ==> digest(s.value) == digest(t.value))
  }

  method DiffTarget(source: Option<Node>, target: Option<Node>, sourceListing: seq<Path>, targetListing: seq<Path>, digest: Content -> string)
    returns (diff: RuntimeDiff)
    requires source.Some? ==> Walks(sourceListing, source.value)
    requires target.Some? ==> Walks(targetListing, target.value)
    ensures diff.InSync() <==> SameFiles(source, target, digest)
    ensures forall path :: path in diff.missing <==> !Ignored(path) && FileAt(source, path).Some? && FileAt(target, path).None?
    ensures forall path :: path in diff.extra <==> !Ignored(path) && FileAt(target, path).Some? && FileAt(source, path).None?
    ensures forall path :: path in diff.changed <==>
              && !Ignored(path) && FileAt(source, path).Some? && FileAt(target, path).Some?
              && digest(FileAt(source, path).value) != digest(FileAt(target, path).value)
  {
    var s := FileDigests(source, sourceListing, digest);
    var t := FileDigests(target, targetListing, digest);
    diff := Diff(s, t);
    DigestsAgree(s, t, source, target, digest);
  }

  lemma DigestsAgree(s: map<Path, string>, t: map<Path, string>, source: Option<Node>, target: Option<Node>, digest: Content -> string)
    requires Describes(s, source, digest) && Describes(t, target, digest)
    ensures s == t <==> SameFiles(source, target, digest)
  {
    if SameFiles(source, target, digest) {
      forall path ensures path in s <==> path in t { }
      assert s.Keys == t.Keys;
      assert s == t;
    }
    if s == t {
      forall path | !Ignored(path)
        ensures FileAt(source, path).Some? == FileAt(target, path).Some?
        ensures FileAt(source, path).Some? ==> digest(FileAt(source, path).value) == digest(FileAt(target, path).value)
      {
        assert path in s <==> path in t;
      }
    }
  }

  /** A copy is in sync with its source, under every digest. */
  lemma CopyInSync(source: Node, digest: Content -> string)
    ensures SameFiles(Some(source), Some(Copy(source)), digest)
  {
    forall path | !Ignored(path) ensures FileAt(Some(source), path) == FileAt(Some(Copy(source)), path) {
      CopyResolves(source, path);
    }
  }
}
