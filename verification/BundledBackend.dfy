/**
 The backend inside the application bundle is accepted only if it is exactly what its pinned manifest
 lists. Paths are below the backend directory, which is the root of this model.
 */
module BundledBackend {
  import opened Prelude
  import opened Paths
  import Distribution

  const MANIFEST := "release-manifest.json"
  const FILE_LIMIT := 4 * 1024 * 1024
  const TOTAL_LIMIT := 32 * 1024 * 1024
  const MANIFEST_LIMIT := 262144
  const RECORD_LIMIT := 1024

  const MLX_FILES := {"kolibri.py", "manage.py", "model_store.py", "server.py"}
  const MLX_PATHS :=
    {"runtime/mlx/kolibri.py", "runtime/mlx/manage.py", "runtime/mlx/model_store.py", "runtime/mlx/server.py"}
  const TOP_PATHS := {"package.json", "lmstudio-picker.config.json", "LICENSE"}
  const REQUIRED := {"bin/pickermux.mjs"} + TOP_PATHS

  /**
   `isTrusted`: owned by the system or the user and not writable by others; a file has one link and does
   not change while it is read.
   */
  datatype Node = File(contents: Bytes, isTrusted: bool) | Directory(isTrusted: bool) | Special

  /** `None` stands for a field that is absent or of another type. */
  datatype Record = Record(path: Option<string>, size: Option<int>, sha256: Option<string>)

  datatype Manifest = Manifest(schemaVersion: int, name: string, hasVersion: bool, records: seq<Record>)

  /** The disk by absolute path, the hash function, and the reader of the manifest's JSON. */
  datatype Bundle = Bundle(
    nodes: map<string, Node>, sha256: Bytes -> string, parse: Bytes -> Option<Manifest>)

  datatype Result = Accepted | MissingLauncher | UnsafeLauncher

  // ---------------------------------------------------------------------------------------------
  // Names.
  // ---------------------------------------------------------------------------------------------

  predicate PathChar(c: char) {
    || 'a' <= c <= 'z' || 'A' <= c <= 'Z' || '0' <= c <= '9' || c == '.' || c == '_' || c == '/' || c == '-'
  }

  predicate IsCodePath(core: string) {
    && |core| > 4 && (core[..4] == "bin/" || core[..4] == "src/")
    && forall i :: 4 <= i < |core| ==> PathChar(core[i])
  }

  /** The dots of the two configuration names are not escaped and match any character of a line. */
  predicate IsTopPath(core: string) {
    || core == "LICENSE"
    || (|core| == 12 && core[..7] == "package" && !Distribution.IsTerminator(core[7]) && core[8..] == "json")
    || (&& |core| == 27 && core[..15] == "lmstudio-picker" && !Distribution.IsTerminator(core[15])
        && core[16..22] == "config" && !Distribution.IsTerminator(core[22]) && core[23..] == "json")
  }

  /** As everywhere, `$` also matches before one final line terminator. */
  predicate MatchesPath(path: string) {
    IsCodePath(Distribution.Core(path)) || IsTopPath(Distribution.Core(path)) || path in MLX_PATHS
  }

  /** The paths that the expression spells out, with its dots read as dots. */
  predicate IsIntendedPath(path: string) {
    IsCodePath(path) || path in TOP_PATHS || path in MLX_PATHS
  }

  /** A dot stands where the expression has one that it does not escape. */
  predicate DotsHold(path: string) {
    && (|path| == 12 && path[..7] == "package" ==> path[7] == '.')
    && (|path| == 27 && path[..15] == "lmstudio-picker" ==> path[15] == '.' && path[22] == '.')
  }

  lemma IntendedIsNotTerminated(path: string)
    requires IsIntendedPath(path)
    ensures !Distribution.IsTerminated(path) && DotsHold(path)
  {
    if IsCodePath(path) {
      assert PathChar(path[|path| - 1]) && path[0] == path[..4][0];
    }
  }

  lemma PackageName(path: string)
    requires |path| == 12 && path[..7] == "package" && path[8..] == "json"
    ensures path == "package.json" <==> path[7] == '.'
  {
    assert path == path[..7] + [path[7]] + path[8..];
    assert "package.json" == "package" + ['.'] + "json";
  }

  lemma ConfigurationName(path: string)
    requires |path| == 27 && path[..15] == "lmstudio-picker" && path[16..22] == "config" && path[23..] == "json"
    ensures path == "lmstudio-picker.config.json" <==> path[15] == '.' && path[22] == '.'
  {
    assert path == path[..15] + [path[15]] + path[16..22] + [path[22]] + path[23..];
    assert "lmstudio-picker.config.json" == "lmstudio-picker" + ['.'] + "config" + ['.'] + "json";
  }

  lemma TopPathMatches(path: string)
    requires path in TOP_PATHS
    ensures IsTopPath(path)
  {
    if path == "package.json" {
      assert path[..7] == "package" && path[8..] == "json";
    } else if path == "lmstudio-picker.config.json" {
      assert path[..15] == "lmstudio-picker" && path[16..22] == "config" && path[23..] == "json";
    }
  }

  lemma TopNameIsIntended(path: string)
    requires IsTopPath(path)
    ensures path in TOP_PATHS <==> DotsHold(path)
  {
    if |path| == 12 {
      PackageName(path);
    } else if |path| == 27 {
      ConfigurationName(path);
    }
  }

  /**
   A path that matches is an intended one exactly when it does not end in a line terminator and the dots
   of the two configuration names are dots.
   */
  lemma MatchedIffIntended(path: string)
    requires MatchesPath(path)
    ensures IsIntendedPath(path) <==> !Distribution.IsTerminated(path) && DotsHold(path)
  {
    if IsIntendedPath(path) {
      IntendedIsNotTerminated(path);
    } else if !Distribution.IsTerminated(path) && DotsHold(path) {
      TopNameIsIntended(path);
    }
  }

  /** Every intended path outside the model runtime also passes with a final line terminator. */
  lemma TerminatedPathMatches(path: string, end: string)
    requires IsIntendedPath(path) && path !in MLX_PATHS && Distribution.IsLineEnd(end)
    ensures MatchesPath(path + end) && !IsIntendedPath(path + end)
  {
    IntendedIsNotTerminated(path);
    Distribution.CoreOfTerminated(path, end);
    if path in TOP_PATHS {
      TopPathMatches(path);
    }
    MatchedIffIntended(path + end);
  }

  /** And the three dots may be anything within a line. */
  lemma DotsMatchAnything(c: char, d: char, e: char)
    requires !Distribution.IsTerminator(c) && !Distribution.IsTerminator(d) && !Distribution.IsTerminator(e)
    ensures var path := "package" + [c] + "json"; MatchesPath(path) && (IsIntendedPath(path) <==> c == '.')
    ensures var path := "lmstudio-picker" + [d] + "config" + [e] + "json";
            MatchesPath(path) && (IsIntendedPath(path) <==> d == '.' && e == '.')
  {
    var path := "package" + [c] + "json";
    assert path[|path| - 1] == 'n' && path[..7] == "package" && path[8..] == "json";
    MatchedIffIntended(path);
    var name := "lmstudio-picker" + [d] + "config" + [e] + "json";
    assert name[|name| - 1] == 'n' && name[..15] == "lmstudio-picker";
    assert name[16..22] == "config" && name[23..] == "json";
    MatchedIffIntended(name);
  }

  /** No part of the path is empty or a dot name. */
  predicate HasPlainParts(path: string) {
    forall i :: 0 <= i < |Split(path)| ==>
      Split(path)[i] != "" && Split(path)[i] != "." && Split(path)[i] != ".."
  }

  predicate IsDigest(s: string) {
    var core := Distribution.Core(s);
    |core| == 64 && forall i :: 0 <= i < 64 ==> '0' <= core[i] <= '9' || 'a' <= core[i] <= 'f'
  }

  predicate ValidRecord(r: Record) {
    && r.path.Some? && MatchesPath(r.path.value) && HasPlainParts(r.path.value)
    && r.size.Some? && 0 <= r.size.value <= FILE_LIMIT && r.sha256.Some? && IsDigest(r.sha256.value)
  }

  function PathIn(r: Record): string {
    if r.path.Some? then r.path.value else ""
  }

  function Absolute(path: string): string {
    "/" + path
  }

  // ---------------------------------------------------------------------------------------------
  // Files.
  // ---------------------------------------------------------------------------------------------

  predicate IsTrustedDirectory(b: Bundle, path: string) {
    path in b.nodes && b.nodes[path].Directory? && b.nodes[path].isTrusted
  }

  function DirectoryRule(b: Bundle): Rule {
    (path: string) => IsTrustedDirectory(b, path)
  }

  predicate IsReadable(b: Bundle, path: string, limit: int) {
    && path in b.nodes && b.nodes[path].File? && b.nodes[path].isTrusted
    && |b.nodes[path].contents| <= limit
  }

  /** The file of a record: trusted directories down to it, and exactly the recorded bytes. */
  ghost predicate Matches(b: Bundle, r: Record) {
    && ValidRecord(r) && AllAbove(DirectoryRule(b), Absolute(r.path.value))
    && IsReadable(b, Absolute(r.path.value), r.size.value)
    && |b.nodes[Absolute(r.path.value)].contents| == r.size.value
    && b.sha256(b.nodes[Absolute(r.path.value)].contents) == r.sha256.value
  }

  function SizeOf(r: Record): int {
    if r.size.Some? then r.size.value else 0
  }

  function TotalSize(records: seq<Record>): int {
    if records == [] then 0 else TotalSize(records[..|records| - 1]) + SizeOf(records[|records| - 1])
  }

  function Listed(records: seq<Record>): set<string> {
    set i | 0 <= i < |records| :: PathIn(records[i])
  }

  predicate DistinctPaths(records: seq<Record>) {
    forall i, j :: 0 <= i < j < |records| ==> PathIn(records[i]) != PathIn(records[j])
  }

  ghost predicate AllMatch(b: Bundle, records: seq<Record>) {
    forall i :: 0 <= i < |records| ==> Matches(b, records[i])
  }

  predicate IsRuntimePath(path: string) {
    |path| >= 8 && path[..8] == "runtime/"
  }

  function RuntimePaths(paths: set<string>): set<string> {
    set path | path in paths && IsRuntimePath(path)
  }

  // ---------------------------------------------------------------------------------------------
  // What is accepted.
  // ---------------------------------------------------------------------------------------------

  /** The manifest is the pinned one and well formed. */
  predicate ManifestAccepted(b: Bundle, expected: string) {
    && IsReadable(b, Absolute(MANIFEST), MANIFEST_LIMIT)
    && var contents := b.nodes[Absolute(MANIFEST)].contents;
       && b.sha256(contents) == expected && b.parse(contents).Some?
       && var m := b.parse(contents).value;
          m.schemaVersion == 1 && m.name == "pickermux" && m.hasVersion && 1 <= |m.records| <= RECORD_LIMIT
  }

  function Records(b: Bundle): seq<Record>
    requires Absolute(MANIFEST) in b.nodes && b.nodes[Absolute(MANIFEST)].File?
    requires b.parse(b.nodes[Absolute(MANIFEST)].contents).Some?
  {
    b.parse(b.nodes[Absolute(MANIFEST)].contents).value.records
  }

  ghost predicate RecordsMatch(b: Bundle, records: seq<Record>) {
    AllMatch(b, records) && DistinctPaths(records) && TotalSize(records) <= TOTAL_LIMIT
  }

  /** The recorded files, checked one by one, and the set they form. */
  ghost predicate RecordsAccepted(b: Bundle, records: seq<Record>) {
    && RecordsMatch(b, records) && REQUIRED <= Listed(records)
    && (RuntimePaths(Listed(records)) == {} || RuntimePaths(Listed(records)) == MLX_PATHS)
  }

  /** The names directly below a directory. */
  function ChildNames(b: Bundle, directory: string): set<string> {
    set path | path in b.nodes && IsChild(path, directory) :: path[|directory| + 1..]
  }

  predicate IsChild(path: string, directory: string) {
    && |directory| + 1 < |path| && path[..|directory|] == directory && path[|directory|] == '/'
    && forall i :: |directory| < i < |path| ==> path[i] != '/'
  }

  /** Below `runtime` there is `mlx` only, with its four files. */
  predicate RuntimeDirectoryAccepted(b: Bundle, path: string) {
    if path == "/runtime" then ChildNames(b, path) == {"mlx"}
    else if path == "/runtime/mlx" then ChildNames(b, path) == MLX_FILES
    else !(|path| >= 9 && path[..9] == "/runtime/")
  }

  predicate NodeAccepted(b: Bundle, path: string, listed: set<string>) {
    path in b.nodes
    && match b.nodes[path]
       case Directory(_) => RuntimeDirectoryAccepted(b, path)
       case File(_, _) => path == Absolute(MANIFEST) || (path != "" && path[1..] in listed)
       case Special => false
  }

  /** Everything below the root is a listed file, the manifest, or a directory. */
  predicate NothingElse(b: Bundle, listed: set<string>) {
    forall path :: path in b.nodes && path != "/" ==> NodeAccepted(b, path, listed)
  }

  predicate IsDirectory(b: Bundle, path: string) {
    path in b.nodes && b.nodes[path].Directory?
  }

  ghost predicate BundleAccepted(b: Bundle, expected: string) {
    && IsDirectory(b, "/") && ManifestAccepted(b, expected)
    && RecordsAccepted(b, Records(b)) && NothingElse(b, Listed(Records(b)))
  }

  // ---------------------------------------------------------------------------------------------
  // The loops.
  // ---------------------------------------------------------------------------------------------

  lemma AbsoluteOf(path: string)
    ensures IsAbsolute(Absolute(path))
  {
  }

  method CheckRecord(b: Bundle, r: Record) returns (ok: bool)
    ensures ok <==> Matches(b, r)
  {
    if !ValidRecord(r) {
      return false;
    }
    var file := Absolute(r.path.value);
    AbsoluteOf(r.path.value);
    ok := WalkUp(DirectoryRule(b), file);
    return ok && IsReadable(b, file, r.size.value) && |b.nodes[file].contents| == r.size.value
           && b.sha256(b.nodes[file].contents) == r.sha256.value;
  }

  /** The loop over the records; `seen` are their paths. */
  method MatchRecords(b: Bundle, records: seq<Record>) returns (ok: bool, seen: set<string>)
    ensures ok <==> RecordsMatch(b, records)
    ensures ok ==> seen == Listed(records)
  {
    seen := {};
    var total := 0;
    for k := 0 to |records|
      invariant AllMatch(b, records[..k]) && DistinctPaths(records[..k])
      invariant seen == Listed(records[..k]) && total == TotalSize(records[..k]) <= TOTAL_LIMIT
    {
      NextRecord(b, records, k);
      if PathIn(records[k]) in seen {
        return false, seen;
      }
      NextIsDistinct(records, k);
      ok := CheckRecord(b, records[k]);
      NextMatches(b, records, k);
      if !ok {
        return false, seen;
      }
      seen := seen + {PathIn(records[k])};
      total := total + SizeOf(records[k]);
      if total > TOTAL_LIMIT {
        TotalExceeded(b, records, k + 1);
        return false, seen;
      }
    }
    assert records[..|records|] == records;
    return true, seen;
  }

  method CheckRecords(b: Bundle, records: seq<Record>) returns (accepted: bool, seen: set<string>)
    ensures accepted <==> RecordsAccepted(b, records)
    ensures accepted ==> seen == Listed(records)
  {
    var ok;
    ok, seen := MatchRecords(b, records);
    var runtime := RuntimePaths(seen);
    accepted := ok && REQUIRED <= seen && (runtime == {} || runtime == MLX_PATHS);
  }

  lemma NextMatches(b: Bundle, records: seq<Record>, k: nat)
    requires k < |records| && AllMatch(b, records[..k])
    ensures Matches(b, records[k]) <==> AllMatch(b, records[..k + 1])
    ensures AllMatch(b, records) ==> Matches(b, records[k])
  {
    var before, after := records[..k], records[..k + 1];
    assert after[k] == records[k];
    assert forall i :: 0 <= i < k ==> after[i] == before[i];
  }

  lemma NextRecord(b: Bundle, records: seq<Record>, k: nat)
    requires k < |records|
    ensures Listed(records[..k + 1]) == Listed(records[..k]) + {PathIn(records[k])}
    ensures TotalSize(records[..k + 1]) == TotalSize(records[..k]) + SizeOf(records[k])
    ensures PathIn(records[k]) in Listed(records[..k]) ==> !DistinctPaths(records)
  {
    assert records[..k + 1][..k] == records[..k];
  }

  lemma NextIsDistinct(records: seq<Record>, k: nat)
    requires k < |records| && DistinctPaths(records[..k]) && PathIn(records[k]) !in Listed(records[..k])
    ensures DistinctPaths(records[..k + 1])
  {
    assert forall i :: 0 <= i < k ==> PathIn(records[..k][i]) in Listed(records[..k]);
  }

  lemma {:induction false} TotalExceeded(b: Bundle, records: seq<Record>, k: nat)
    requires k <= |records| && TotalSize(records[..k]) > TOTAL_LIMIT
    ensures !RecordsMatch(b, records)
    decreases |records|
  {
    if AllMatch(b, records) {
      SizesGrow(b, records, k);
    }
  }

  lemma {:induction false} SizesGrow(b: Bundle, records: seq<Record>, k: nat)
    requires k <= |records| && AllMatch(b, records)
    ensures TotalSize(records[..k]) <= TotalSize(records)
    decreases |records|
  {
    if k == |records| {
      assert records[..k] == records;
    } else {
      var front := records[..|records| - 1];
      assert Matches(b, records[|records| - 1]);
      SizesGrow(b, front, k);
      assert front[..k] == records[..k];
    }
  }

  /** The enumeration visits everything below the root once, in any order. */
  predicate Enumerates(b: Bundle, listing: seq<string>) {
    && (forall i :: 0 <= i < |listing| ==> listing[i] in b.nodes && listing[i] != "/")
    && forall path :: path in b.nodes && path != "/" ==> path in listing
  }

  method CheckEnumeration(b: Bundle, listing: seq<string>, seen: set<string>) returns (ok: bool)
    requires Enumerates(b, listing)
    ensures ok <==> NothingElse(b, seen)
  {
    for k := 0 to |listing|
      invariant forall i :: 0 <= i < k ==> NodeAccepted(b, listing[i], seen)
    {
      if !NodeAccepted(b, listing[k], seen) {
        return false;
      }
    }
    return true;
  }

  /** `failed` says that the enumeration met an error; `expected` and the directory may be absent. */
  method Validate(b: Bundle, expected: Option<string>, hasDirectory: bool, listing: seq<string>, failed: bool)
    returns (result: Result)
    requires Enumerates(b, listing)
    ensures result == MissingLauncher <==> !hasDirectory || expected.None?
    ensures result == Accepted <==> hasDirectory && expected.Some? && !failed && BundleAccepted(b, expected.value)
  {
    if !hasDirectory || expected.None? {
      return MissingLauncher;
    }
    if !IsDirectory(b, "/") || !ManifestAccepted(b, expected.value) {
      return UnsafeLauncher;
    }
    var accepted, seen := CheckRecords(b, Records(b));
    if !accepted {
      return UnsafeLauncher;
    }
    var nothingElse := CheckEnumeration(b, listing, seen);
    return if nothingElse && !failed then Accepted else UnsafeLauncher;
  }

  // ---------------------------------------------------------------------------------------------
  // What acceptance means.
  // ---------------------------------------------------------------------------------------------

  /** The files on disk, by their paths below the root. */
  function FilesOnDisk(b: Bundle): set<string> {
    set path | path in b.nodes && path != "" && b.nodes[path].File? :: path[1..]
  }

  /** Every path of the disk is absolute. */
  predicate PathsAreAbsolute(b: Bundle) {
    forall path :: path in b.nodes ==> IsAbsolute(path)
  }

  lemma NodeIsListed(b: Bundle, expected: string, path: string)
    requires PathsAreAbsolute(b) && BundleAccepted(b, expected) && path in b.nodes
    ensures !b.nodes[path].Special?
    ensures b.nodes[path].File? ==> path[1..] in Listed(Records(b)) + {MANIFEST}
  {
    assert path == "/" || NodeAccepted(b, path, Listed(Records(b)));
  }

  /** No special file, and exactly the listed files and the manifest. */
  lemma AcceptedFilesAreListed(b: Bundle, expected: string)
    requires PathsAreAbsolute(b) && BundleAccepted(b, expected)
    ensures FilesOnDisk(b) == Listed(Records(b)) + {MANIFEST}
    ensures forall path :: path in b.nodes ==> !b.nodes[path].Special?
  {
    forall path | path in Listed(Records(b)) + {MANIFEST} ensures path in FilesOnDisk(b) {
      ListedIsFile(b, expected, path);
    }
    forall path | path in FilesOnDisk(b) ensures path in Listed(Records(b)) + {MANIFEST} {
      FileIsListed(b, expected, path);
    }
    forall path | path in b.nodes ensures !b.nodes[path].Special? {
      NodeIsListed(b, expected, path);
    }
  }

  lemma FileIsListed(b: Bundle, expected: string, path: string)
    requires PathsAreAbsolute(b) && BundleAccepted(b, expected) && path in FilesOnDisk(b)
    ensures path in Listed(Records(b)) + {MANIFEST}
  {
    var file :| file in b.nodes && b.nodes[file].File? && path == file[1..];
    NodeIsListed(b, expected, file);
  }

  lemma ListedIsFile(b: Bundle, expected: string, path: string)
    requires BundleAccepted(b, expected) && path in Listed(Records(b)) + {MANIFEST}
    ensures path in FilesOnDisk(b)
  {
    var file := Absolute(path);
    assert file[1..] == path;
    if path != MANIFEST {
      var i :| 0 <= i < |Records(b)| && PathIn(Records(b)[i]) == path;
      assert Matches(b, Records(b)[i]);
    }
    assert file in b.nodes && b.nodes[file].File?;
  }

  /** Every listed file has exactly the recorded bytes, and all of them together stay within the bound. */
  lemma AcceptedContents(b: Bundle, expected: string, i: nat)
    requires BundleAccepted(b, expected) && i < |Records(b)|
    ensures var r := Records(b)[i];
            && r.path.Some? && r.size.Some? && r.sha256.Some? && Absolute(r.path.value) in b.nodes
            && var node := b.nodes[Absolute(r.path.value)];
               node.File? && |node.contents| == r.size.value && b.sha256(node.contents) == r.sha256.value
    ensures TotalSize(Records(b)) <= TOTAL_LIMIT
  {
    assert Matches(b, Records(b)[i]);
  }

  /** The directories of a listed file, from the backend root down, are trusted. */
  lemma AcceptedParents(b: Bundle, expected: string, i: nat, n: nat)
    requires BundleAccepted(b, expected) && i < |Records(b)| && n < |Split(PathIn(Records(b)[i]))|
    ensures IsTrustedDirectory(b, PathOf(Split(PathIn(Records(b)[i]))[..n]))
  {
    var path := PathIn(Records(b)[i]);
    assert Matches(b, Records(b)[i]);
    SplitJoins(path);
    PartsAreNames(path);
    AboveIsPrefixes(DirectoryRule(b), Split(path));
    assert DirectoryRule(b)(PathOf(Split(path)[..n]));
  }

  lemma {:induction false} PartsHaveNoSlash(path: string, i: nat)
    requires i < |Split(path)|
    ensures forall k :: 0 <= k < |Split(path)[i]| ==> Split(path)[i][k] != '/'
  {
    var cut := CutName(path);
    CutIsLast(path);
    if cut != "" && i < |Split(path)| - 1 {
      PartsHaveNoSlash(cut[..|cut| - 1], i);
    }
  }

  lemma {:induction false} CutIsLast(path: string)
    ensures forall k :: |CutName(path)| <= k < |path| ==> path[k] != '/'
  {
    if path != "" && path[|path| - 1] != '/' {
      CutIsLast(path[..|path| - 1]);
    }
  }

  lemma PartsAreNames(path: string)
    requires HasPlainParts(path)
    ensures AreNames(Split(path))
  {
    forall i | 0 <= i < |Split(path)| ensures IsName(Split(path)[i]) {
      PartsHaveNoSlash(path, i);
    }
  }

  /** The model runtime is packaged completely or not at all, on disk as well as in the manifest. */
  lemma RuntimeIsAllOrNothing(b: Bundle, expected: string)
    requires PathsAreAbsolute(b) && BundleAccepted(b, expected)
    ensures RuntimePaths(FilesOnDisk(b)) == {} || RuntimePaths(FilesOnDisk(b)) == MLX_PATHS
  {
    AcceptedFilesAreListed(b, expected);
    ManifestIsNoRuntime();
    RuntimeWith(Listed(Records(b)), MANIFEST);
  }

  lemma ManifestIsNoRuntime()
    ensures !IsRuntimePath(MANIFEST)
  {
    assert MANIFEST[1] == 'e' && MANIFEST[..8][1] == 'e' && "runtime/"[1] == 'u';
  }

  lemma RuntimeWith(paths: set<string>, extra: string)
    requires !IsRuntimePath(extra)
    ensures RuntimePaths(paths + {extra}) == RuntimePaths(paths)
  {
  }
}
