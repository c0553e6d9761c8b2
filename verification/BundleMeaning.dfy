/** What an accepted bundle looks like on disk, without the validator's own terms. */
module BundleMeaning {
  import opened Prelude
  import opened Paths
  import opened BundledBackend
  import Distribution

  /** A trusted file with these bytes at an absolute path. */
  predicate HoldsFile(b: Bundle, path: string, contents: Bytes) {
    path in b.nodes && b.nodes[path] == File(contents, true)
  }

  /** The pinned manifest, and what it says. */
  ghost predicate IsPinned(b: Bundle, expected: string, m: Manifest) {
    && (exists contents :: HoldsFile(b, "/release-manifest.json", contents) && |contents| <= 262144
                           && b.sha256(contents) == expected && b.parse(contents) == Some(m))
    && m.schemaVersion == 1 && m.name == "pickermux" && m.hasVersion && 1 <= |m.records| <= 1024
  }

  lemma ManifestPath()
    ensures Absolute(MANIFEST) == "/release-manifest.json"
  {
  }

  lemma ManifestMeans(b: Bundle, expected: string, m: Manifest)
    ensures ManifestAccepted(b, expected) && b.parse(b.nodes[Absolute(MANIFEST)].contents) == Some(m)
            <==> IsPinned(b, expected, m)
  {
    ManifestPath();
  }

  /** No empty part, and no dot name, between slashes. */
  predicate IsPlainPath(path: string) {
    forall part :: part in Split(path) ==> part != "" && part != "." && part != ".."
  }

  /** The file of a record is there, with exactly these bytes, below trusted directories. */
  ghost predicate IsDelivered(b: Bundle, path: string, size: int, digest: string) {
    && MatchesPath(path) && IsPlainPath(path) && 0 <= size <= 4194304 && IsDigest(digest)
    && (exists contents :: HoldsFile(b, "/" + path, contents) && |contents| == size && b.sha256(contents) == digest)
    && AllAbove(directory => directory in b.nodes && b.nodes[directory] == Directory(true), "/" + path)
  }

  /** No field is missing, and the file is there. */
  ghost predicate IsFulfilled(b: Bundle, r: Record) {
    && r.path.Some? && r.size.Some? && r.sha256.Some?
    && IsDelivered(b, r.path.value, r.size.value, r.sha256.value)
  }

  lemma RuleMeans(b: Bundle, file: string)
    ensures AllAbove(DirectoryRule(b), file)
            <==> AllAbove(directory => directory in b.nodes && b.nodes[directory] == Directory(true), file)
  {
    var rule: Rule := directory => directory in b.nodes && b.nodes[directory] == Directory(true);
    assert forall directory :: DirectoryRule(b)(directory) == rule(directory);
    assert AllAbove(DirectoryRule(b), file) <==> AllAbove(rule, file);
  }

  lemma PlainParts(path: string)
    ensures HasPlainParts(path) <==> IsPlainPath(path)
  {
    assert forall i :: 0 <= i < |Split(path)| ==> Split(path)[i] in Split(path);
  }

  lemma RecordMeans(b: Bundle, r: Record)
    ensures Matches(b, r) <==> IsFulfilled(b, r)
  {
    if r.path.Some? {
      RuleMeans(b, Absolute(r.path.value));
      PlainParts(r.path.value);
    }
  }

  // ---------------------------------------------------------------------------------------------
  // What lies below the root.
  // ---------------------------------------------------------------------------------------------

  /** A name directly below a directory. */
  predicate LiesIn(b: Bundle, directory: string, name: string) {
    name != "" && '/' !in name && directory + "/" + name in b.nodes
  }

  lemma ChildMeans(b: Bundle, directory: string, name: string)
    ensures name in ChildNames(b, directory) <==> LiesIn(b, directory, name)
  {
    if path :| path in b.nodes && IsChild(path, directory) && path[|directory| + 1..] == name {
      assert path == path[..|directory|] + [path[|directory|]] + path[|directory| + 1..];
      assert path == directory + "/" + name;
      assert forall i :: 0 <= i < |name| ==> name[i] == path[|directory| + 1 + i];
    }
    if LiesIn(b, directory, name) {
      var path := directory + "/" + name;
      assert path[..|directory|] == directory && path[|directory| + 1..] == name;
      assert IsChild(path, directory);
    }
  }

  /** The directory holds exactly these names. */
  ghost predicate HoldsExactly(b: Bundle, directory: string, names: set<string>) {
    forall name :: LiesIn(b, directory, name) <==> name in names
  }

  lemma ChildrenMean(b: Bundle, directory: string, names: set<string>)
    ensures ChildNames(b, directory) == names <==> HoldsExactly(b, directory, names)
  {
    forall name ensures name in ChildNames(b, directory) <==> LiesIn(b, directory, name) {
      ChildMeans(b, directory, name);
    }
    if HoldsExactly(b, directory, names) {
      forall name ensures name in ChildNames(b, directory) <==> name in names {
        assert LiesIn(b, directory, name) <==> name in names;
      }
    }
  }

  /** A listed file or the manifest; a directory, of which `runtime` and `mlx` hold what they must. */
  ghost predicate IsAllowed(b: Bundle, path: string, listed: set<string>)
    requires path in b.nodes
  {
    match b.nodes[path]
    case File(_, _) => path == "/release-manifest.json" || exists name :: name in listed && path == "/" + name
    case Directory(_) =>
      && (path == "/runtime" ==> HoldsExactly(b, path, {"mlx"}))
      && (path == "/runtime/mlx" ==>
            HoldsExactly(b, path, {"kolibri.py", "manage.py", "model_store.py", "server.py"}))
      && (path != "/runtime/mlx" ==> !("/runtime/" <= path))
    case Special => false
  }

  lemma BelowRuntime(path: string)
    ensures |path| >= 9 && path[..9] == "/runtime/" <==> "/runtime/" <= path
  {
  }

  lemma NodeMeans(b: Bundle, path: string, listed: set<string>)
    requires path in b.nodes && IsAbsolute(path)
    ensures NodeAccepted(b, path, listed) <==> IsAllowed(b, path, listed)
  {
    ManifestPath();
    BelowRuntime(path);
    ChildrenMean(b, path, {"mlx"});
    ChildrenMean(b, path, {"kolibri.py", "manage.py", "model_store.py", "server.py"});
    assert path == "/" + path[1..];
    assert forall name :: path == "/" + name ==> name == path[1..];
  }

  // ---------------------------------------------------------------------------------------------
  // Accepted bundles.
  // ---------------------------------------------------------------------------------------------

  predicate IsListed(records: seq<Record>, path: string) {
    exists r :: r in records && r.path == Some(path)
  }

  /** All model runtime files are listed, or nothing below `runtime`. */
  predicate RuntimeIsWhole(records: seq<Record>) {
    || (forall r :: r in records && r.path.Some? ==> !("runtime/" <= r.path.value))
    || (&& IsListed(records, "runtime/mlx/kolibri.py") && IsListed(records, "runtime/mlx/manage.py")
        && IsListed(records, "runtime/mlx/model_store.py") && IsListed(records, "runtime/mlx/server.py"))
  }

  lemma ListedMeans(records: seq<Record>, path: string)
    requires forall r :: r in records ==> r.path.Some?
    ensures path in Listed(records) <==> IsListed(records, path)
  {
    if r :| r in records && r.path == Some(path) {
      var i :| 0 <= i < |records| && records[i] == r;
      assert PathIn(records[i]) == path;
    }
  }

  lemma MlxPathsAreRuntime()
    ensures forall path :: path in MLX_PATHS ==> "runtime/" <= path
  {
  }

  lemma RuntimePathMeans(path: string)
    ensures IsRuntimePath(path) <==> "runtime/" <= path
    ensures MatchesPath(path) && "runtime/" <= path ==> path in MLX_PATHS
  {
    if MatchesPath(path) && path !in MLX_PATHS {
      OtherPath(path);
    }
  }

  lemma OtherPath(path: string)
    requires MatchesPath(path) && path !in MLX_PATHS
    ensures path != "" && path[0] != 'r'
  {
    var core := Distribution.Core(path);
    if IsCodePath(core) {
      assert core[0] == core[..4][0];
    } else if |core| == 12 {
      assert core[0] == core[..7][0];
    } else if |core| == 27 {
      assert core[0] == core[..15][0];
    }
  }

  lemma RuntimeMeans(records: seq<Record>)
    requires forall r :: r in records ==> r.path.Some? && MatchesPath(r.path.value)
    ensures RuntimePaths(Listed(records)) == {} || RuntimePaths(Listed(records)) == MLX_PATHS
            <==> RuntimeIsWhole(records)
  {
    var packaged := RuntimePaths(Listed(records));
    MlxPathsAreRuntime();
    forall path ensures path in packaged <==> IsListed(records, path) && "runtime/" <= path {
      ListedMeans(records, path);
      RuntimePathMeans(path);
    }
    forall path | path in packaged ensures path in MLX_PATHS {
      var r :| r in records && r.path == Some(path);
      RuntimePathMeans(path);
    }
    if forall r :: r in records && r.path.Some? ==> !("runtime/" <= r.path.value) {
      assert packaged == {};
    } else {
      var r :| r in records && r.path.Some? && "runtime/" <= r.path.value;
      assert IsListed(records, r.path.value);
      assert r.path.value in packaged;
    }
  }

  /** The records of an accepted manifest: delivered, distinct, complete and bounded. */
  ghost predicate AreDelivered(b: Bundle, records: seq<Record>) {
    && (forall r :: r in records ==> IsFulfilled(b, r))
    && (forall i, j :: 0 <= i < j < |records| ==> records[i].path != records[j].path)
    && TotalSize(records) <= 33554432
    && IsListed(records, "bin/pickermux.mjs") && IsListed(records, "package.json")
    && IsListed(records, "lmstudio-picker.config.json") && IsListed(records, "LICENSE")
    && RuntimeIsWhole(records)
  }

  lemma AllMatchMeans(b: Bundle, records: seq<Record>)
    ensures AllMatch(b, records) <==>
              forall r :: r in records ==> IsFulfilled(b, r)
  {
    forall r ensures Matches(b, r) <==> IsFulfilled(b, r) {
      RecordMeans(b, r);
    }
    assert AllMatch(b, records) <==> forall r :: r in records ==> Matches(b, r);
  }

  lemma DistinctMeans(records: seq<Record>)
    requires forall r :: r in records ==> r.path.Some?
    ensures DistinctPaths(records) <==> forall i, j :: 0 <= i < j < |records| ==> records[i].path != records[j].path
  {
    forall i, j | 0 <= i < j < |records|
      ensures PathIn(records[i]) != PathIn(records[j]) <==> records[i].path != records[j].path
    {
      assert records[i] in records && records[j] in records;
    }
  }

  lemma RequiredMeans(records: seq<Record>)
    requires forall r :: r in records ==> r.path.Some?
    ensures REQUIRED <= Listed(records) <==>
              && IsListed(records, "bin/pickermux.mjs") && IsListed(records, "package.json")
              && IsListed(records, "lmstudio-picker.config.json") && IsListed(records, "LICENSE")
  {
    ListedMeans(records, "bin/pickermux.mjs");
    ListedMeans(records, "package.json");
    ListedMeans(records, "lmstudio-picker.config.json");
    ListedMeans(records, "LICENSE");
  }

  lemma FulfilledPaths(b: Bundle, records: seq<Record>)
    requires forall r :: r in records ==> IsFulfilled(b, r)
    ensures forall r :: r in records ==> r.path.Some? && MatchesPath(r.path.value)
  {
  }

  lemma RecordsMean(b: Bundle, records: seq<Record>)
    ensures RecordsAccepted(b, records) <==> AreDelivered(b, records)
  {
    AllMatchMeans(b, records);
    if AllMatch(b, records) {
      assert forall r :: r in records ==> IsFulfilled(b, r);
      FulfilledPaths(b, records);
      DistinctMeans(records);
      RequiredMeans(records);
      RuntimeMeans(records);
    }
  }

  ghost predicate NothingForeign(b: Bundle, records: seq<Record>) {
    && "/" in b.nodes && b.nodes["/"].Directory?
    && forall path :: path in b.nodes && path != "/" ==> IsAllowed(b, path, Listed(records))
  }

  lemma NodesMean(b: Bundle, records: seq<Record>)
    requires PathsAreAbsolute(b)
    ensures NothingForeign(b, records) <==> IsDirectory(b, "/") && NothingElse(b, Listed(records))
  {
    forall path | path in b.nodes
      ensures NodeAccepted(b, path, Listed(records)) <==> IsAllowed(b, path, Listed(records))
    {
      NodeMeans(b, path, Listed(records));
    }
  }

  lemma PinnedManifest(b: Bundle, expected: string, m: Manifest)
    requires IsPinned(b, expected, m)
    ensures ManifestAccepted(b, expected) && Records(b) == m.records
  {
    ManifestMeans(b, expected, m);
  }

  lemma AcceptedManifest(b: Bundle, expected: string) returns (m: Manifest)
    requires ManifestAccepted(b, expected)
    ensures IsPinned(b, expected, m) && Records(b) == m.records
  {
    m := b.parse(b.nodes[Absolute(MANIFEST)].contents).value;
    ManifestMeans(b, expected, m);
  }

  /**
   A bundle is accepted exactly when its manifest is the pinned one, every record is delivered, and
   nothing else lies below its root.
   */
  lemma BundleMeans(b: Bundle, expected: string)
    requires PathsAreAbsolute(b)
    ensures BundleAccepted(b, expected) <==>
              exists m :: IsPinned(b, expected, m) && AreDelivered(b, m.records) && NothingForeign(b, m.records)
  {
    if m :| IsPinned(b, expected, m) && AreDelivered(b, m.records) && NothingForeign(b, m.records) {
      PinnedManifest(b, expected, m);
      RecordsMean(b, m.records);
      NodesMean(b, m.records);
    }
    if BundleAccepted(b, expected) {
      var m := AcceptedManifest(b, expected);
      RecordsMean(b, m.records);
      NodesMean(b, m.records);
    }
  }
}
