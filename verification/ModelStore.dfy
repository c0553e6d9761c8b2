/**
 Immutable model profiles: a plan of the files of a repository, the profile of a prepared snapshot, and
 its verification. The file system, the hash functions and the JSON reader are parameters.
 */
module ModelStore {
  import opened Prelude
  import opened Text
  import opened Utf8
  import opened Json
  import opened JsonRoundTrip
  import opened Kolibri
  import opened Weights

  const MAX_FILES := 256
  const MAX_SNAPSHOT_BYTES := 128 * 1024 * 1024 * 1024
  const MAX_METADATA_BYTES := 32 * 1024 * 1024
  const MAX_CONTEXT_WINDOW := 262144
  const PROFILE_KIND := "pickermux-mlx-profile"
  const INDEX_FILE := "model.safetensors.index.json"
  const CONFIG := "config.json"
  const TOKENIZER_CONFIG := "tokenizer_config.json"
  const ARCHITECTURE_FILE := "kolibri1.py"
  const ARCHITECTURE := "kolibri1"

  predicate IsDataFile(name: string) {
    || name == CONFIG || name == "generation_config.json" || name == "tokenizer.json" || name == TOKENIZER_CONFIG
    || name == "special_tokens_map.json" || name == "added_tokens.json" || name == "tokenizer.model"
    || name == "vocab.json" || name == "merges.txt" || name == "chat_template.jinja" || name == INDEX_FILE
    || name == "LICENSE"
  }

  /** The one repository whose architecture is custom code, pinned file by file, and the pinned versions. */
  datatype Pins = Pins(
    repository: string, revision: string, digests: map<string, string>, versions: seq<(string, string)>)

  /** `json` is the strict reader of a UTF-8 file, `builtIn` says that an architecture is an installed one. */
  datatype World = World(
    sha256: Bytes -> string, gitSha1: Bytes -> string, json: Bytes -> Option<Json>, digits: Digits,
    builtIn: Json -> bool, pins: Pins)

  // ---------------------------------------------------------------------------------------------
  // Records.
  // ---------------------------------------------------------------------------------------------

  datatype Spec = Spec(repository: string, revision: string, alias: string, contextWindow: int, maxOutputTokens: int)

  datatype HashKind = Sha256 | GitSha1

  datatype FileEntry = FileEntry(name: string, bytes: int, kind: HashKind, hash: string)

  /** What a plan and the profile made from it have in common. */
  datatype Terms = Terms(
    schemaVersion: int, repository: string, revision: string, alias: string, contextWindow: int,
    maxOutputTokens: int, modelType: string, customArchitecture: Option<string>,
    runtimeVersions: seq<(string, string)>)

  datatype Plan = Plan(terms: Terms, files: seq<FileEntry>)

  datatype ProfileFile = ProfileFile(name: string, bytes: int, sha256: string)

  datatype Profile = Profile(
    kind: string, terms: Terms, files: seq<ProfileFile>, snapshotDirectory: string, profileDigest: string)

  // ---------------------------------------------------------------------------------------------
  // The disk.
  // ---------------------------------------------------------------------------------------------

  /** `isPrivate`: a regular file of the user with one link and no access for others. */
  datatype Node = Plain(contents: Bytes, isPrivate: bool) | Foreign

  /** The snapshot directory; `.cache` is kept apart. */
  datatype Disk = Disk(isPrivate: bool, nodes: map<string, Node>, cacheIsSafe: bool)

  predicate IsPrivateFile(disk: Disk, name: string) {
    name in disk.nodes && disk.nodes[name].Plain? && disk.nodes[name].isPrivate
  }

  /** Nothing but the named files, and each of them private; `allowMissing` excuses absent ones. */
  predicate SafeInventory(disk: Disk, names: seq<string>, allowMissing: bool) {
    && disk.isPrivate && disk.cacheIsSafe
    && (forall name :: name in disk.nodes ==> name in names)
    && (forall name :: name in names ==> IsPrivateFile(disk, name) || (allowMissing && name !in disk.nodes))
  }

  method CheckInventory(disk: Disk, names: seq<string>, allowMissing: bool) returns (ok: bool)
    ensures ok == SafeInventory(disk, names, allowMissing)
  {
    if !disk.isPrivate {
      return false;
    }
    var left := disk.nodes.Keys;
    while left != {}
      invariant left <= disk.nodes.Keys
      invariant forall name :: name in disk.nodes && name !in left ==> name in names
      decreases |left|
    {
      var name :| name in left;
      if name !in names {
        return false;
      }
      left := left - {name};
    }
    if !disk.cacheIsSafe {
      return false;
    }
    for k := 0 to |names|
      invariant forall j :: 0 <= j < k ==> IsPrivateFile(disk, names[j]) || (allowMissing && names[j] !in disk.nodes)
    {
      if allowMissing && names[k] !in disk.nodes {
        continue;
      }
      if !IsPrivateFile(disk, names[k]) {
        return false;
      }
    }
    return true;
  }

  function HashOf(world: World, kind: HashKind, contents: Bytes): string {
    if kind == Sha256 then world.sha256(contents) else world.gitSha1(contents)
  }

  /** `expected_file`: the file is the expected one. */
  predicate IsExpected(world: World, disk: Disk, entry: FileEntry) {
    && IsPrivateFile(disk, entry.name) && |disk.nodes[entry.name].contents| == entry.bytes
    && HashOf(world, entry.kind, disk.nodes[entry.name].contents) == entry.hash
  }

  function ReadJson(world: World, disk: Disk, name: string): Option<Json> {
    if IsPrivateFile(disk, name) && |disk.nodes[name].contents| <= MAX_METADATA_BYTES
    then world.json(disk.nodes[name].contents) else None
  }

  // ---------------------------------------------------------------------------------------------
  // Grammars.
  // ---------------------------------------------------------------------------------------------

  predicate IsLower(c: char) {
    'a' <= c <= 'z'
  }

  predicate IsAlnum(c: char) {
    IsLower(c) || 'A' <= c <= 'Z' || IsDigit(c)
  }

  predicate IsHex(s: string, n: nat) {
    |s| == n && forall i :: 0 <= i < n ==> IsDigit(s[i]) || 'a' <= s[i] <= 'f'
  }

  predicate IsRepositoryPart(s: string) {
    && 1 <= |s| <= 128 && IsAlnum(s[0])
    && forall i :: 0 <= i < |s| ==> IsAlnum(s[i]) || s[i] == '.' || s[i] == '_' || s[i] == '-'
  }

  predicate IsRepository(s: string) {
    && |s| <= 255
    && exists k :: 0 <= k < |s| && s[k] == '/' && IsRepositoryPart(s[..k]) && IsRepositoryPart(s[k + 1..])
  }

  predicate IsRevision(s: string) {
    && 1 <= |s| <= 128 && IsAlnum(s[0])
    && (forall i :: 0 <= i < |s| ==> IsAlnum(s[i]) || s[i] == '.' || s[i] == '_' || s[i] == '/' || s[i] == '-')
    && forall i :: 0 <= i < |s| - 1 ==> !(s[i] == '.' && s[i + 1] == '.')
  }

  predicate IsAlias(s: string) {
    && 1 <= |s| <= 64 && (IsLower(s[0]) || IsDigit(s[0]))
    && forall i :: 0 <= i < |s| ==> IsLower(s[i]) || IsDigit(s[i]) || s[i] == '.' || s[i] == '_' || s[i] == '-'
  }

  predicate IsIdentifier(s: string) {
    && 1 <= |s| <= 64 && IsLower(s[0])
    && forall i :: 0 <= i < |s| ==> IsLower(s[i]) || IsDigit(s[i]) || s[i] == '_'
  }

  predicate ValidSpec(spec: Spec) {
    && IsRepository(spec.repository) && IsRevision(spec.revision) && IsAlias(spec.alias)
    && 1024 <= spec.contextWindow <= MAX_CONTEXT_WINDOW
    && 1 <= spec.maxOutputTokens <= 2048 && spec.maxOutputTokens <= spec.contextWindow - 1
  }

  function SpecOf(t: Terms): Spec {
    Spec(t.repository, t.revision, t.alias, t.contextWindow, t.maxOutputTokens)
  }

  predicate IsCustom(world: World, repository: string, revision: string) {
    repository == world.pins.repository && revision == world.pins.revision
  }

  function CustomOf(custom: bool): Option<string> {
    if custom then Some(ARCHITECTURE) else None
  }

  predicate ValidTerms(world: World, t: Terms) {
    && t.schemaVersion == 1 && t.runtimeVersions == world.pins.versions && IsHex(t.revision, 40)
    && ValidSpec(SpecOf(t)) && t.customArchitecture == CustomOf(IsCustom(world, t.repository, t.revision))
  }

  // ---------------------------------------------------------------------------------------------
  // File lists.
  // ---------------------------------------------------------------------------------------------

  function NamesOf(files: seq<FileEntry>): (names: seq<string>)
    ensures |names| == |files|
  {
    seq(|files|, i requires 0 <= i < |files| => files[i].name)
  }

  function NameSetOf(files: seq<FileEntry>): set<string> {
    set i | 0 <= i < |files| :: files[i].name
  }

  function TotalBytes(files: seq<FileEntry>): int {
    if files == [] then 0 else TotalBytes(files[..|files| - 1]) + files[|files| - 1].bytes
  }

  predicate ValidEntry(world: World, custom: bool, entry: FileEntry) {
    && (IsDataFile(entry.name) || IsWeight(world.digits, entry.name) || (custom && entry.name == ARCHITECTURE_FILE))
    && 0 <= entry.bytes <= MAX_SNAPSHOT_BYTES && IsHex(entry.hash, if entry.kind == Sha256 then 64 else 40)
    && (custom ==>
          && entry.kind == Sha256 && entry.name in world.pins.digests
          && world.pins.digests[entry.name] == entry.hash)
  }

  predicate DistinctFiles(files: seq<FileEntry>) {
    forall i, j :: 0 <= i < j < |files| ==> files[i].name != files[j].name
  }

  /** The checks on the whole list that the planner and the validator share. */
  predicate ValidSet(world: World, custom: bool, files: seq<FileEntry>) {
    && DistinctFiles(files) && TotalBytes(files) <= MAX_SNAPSHOT_BYTES
    && CONFIG in NameSetOf(files) && TOKENIZER_CONFIG in NameSetOf(files)
    && WeightsIn(world.digits, NameSetOf(files)) != {}
    && (custom ==> NameSetOf(files) == world.pins.digests.Keys)
  }

  predicate ValidFiles(world: World, custom: bool, files: seq<FileEntry>) {
    && 1 <= |files| <= MAX_FILES
    && (forall i :: 0 <= i < |files| ==> ValidEntry(world, custom, files[i]))
    && ValidSet(world, custom, files)
  }

  /** The loop over the entries of a plan or of a profile. */
  method CheckFiles(world: World, custom: bool, files: seq<FileEntry>) returns (ok: bool)
    ensures ok == ValidFiles(world, custom, files)
  {
    if !(1 <= |files| <= MAX_FILES) {
      return false;
    }
    var names: set<string> := {};
    var distinct, total := true, 0;
    for k := 0 to |files|
      invariant forall i :: 0 <= i < k ==> ValidEntry(world, custom, files[i])
      invariant names == NameSetOf(files[..k]) && total == TotalBytes(files[..k])
      invariant distinct == DistinctFiles(files[..k])
    {
      if !ValidEntry(world, custom, files[k]) {
        return false;
      }
      NextFile(files, k);
      distinct := distinct && files[k].name !in names;
      names := names + {files[k].name};
      total := total + files[k].bytes;
    }
    assert files[..|files|] == files;
    return && distinct && total <= MAX_SNAPSHOT_BYTES && CONFIG in names && TOKENIZER_CONFIG in names
           && WeightsIn(world.digits, names) != {} && (custom ==> names == world.pins.digests.Keys);
  }

  lemma NextFile(files: seq<FileEntry>, k: nat)
    requires k < |files|
    ensures NameSetOf(files[..k + 1]) == NameSetOf(files[..k]) + {files[k].name}
    ensures TotalBytes(files[..k + 1]) == TotalBytes(files[..k]) + files[k].bytes
    ensures DistinctFiles(files[..k + 1]) <==> DistinctFiles(files[..k]) && files[k].name !in NameSetOf(files[..k])
  {
    var before, after := files[..k], files[..k + 1];
    assert after[..k] == before;
    assert forall i :: 0 <= i < k ==> after[i] == before[i];
  }

  predicate ValidPlan(world: World, plan: Plan) {
    && ValidTerms(world, plan.terms) && IsIdentifier(plan.terms.modelType)
    && ValidFiles(world, IsCustom(world, plan.terms.repository, plan.terms.revision), plan.files)
  }

  // ---------------------------------------------------------------------------------------------
  // Weights, architecture, context.
  // ---------------------------------------------------------------------------------------------

  /** `validate_weights` */
  predicate ValidWeights(world: World, disk: Disk, names: set<string>) {
    var weights := WeightsIn(world.digits, names);
    && NamesAccepted(world.digits, weights)
    && (INDEX_FILE in disk.nodes ==>
          && ReadJson(world, disk, INDEX_FILE).Some?
          && Mapped(ReadJson(world, disk, INDEX_FILE).value) == Some(weights))
  }

  function Get(v: Json, key: string): Json {
    match (if v.Obj? then Field(v.members, PointsOf(key)) else None)
    case Some(found) => found
    case None => Null
  }

  predicate NoRemoteCode(v: Json) {
    v.Obj? && Get(v, "model_file").Null? && Get(v, "auto_map").Null?
  }

  predicate EndsInFile(key: Points) {
    |key| >= 5 && key[|key| - 5..] == PointsOf("_file")
  }

  /** Tokenizer files named by the tokenizer configuration lie in the inventory. */
  predicate OverridesInside(tokenizer: Json)
    requires tokenizer.Obj?
  {
    forall m :: m in tokenizer.members && EndsInFile(m.key) && !m.value.Null? ==>
      m.value.Str? && IsDataFile(TextOf(m.value.points))
  }

  predicate FastFilesInside(tokenizer: Json) {
    match Get(tokenizer, "fast_tokenizer_files")
    case Null => true
    case Arr(items) => forall item :: item in items ==> item == Str(PointsOf("tokenizer.json"))
    case _ => false
  }

  predicate IsParserName(v: Json) {
    v.Null? || (v.Str? && IsIdentifier(TextOf(v.points)))
  }

  /** `supported_architecture` */
  function SupportedArchitecture(world: World, config: Json, tokenizer: Json, custom: bool): Option<string> {
    if !NoRemoteCode(config) || !NoRemoteCode(tokenizer) || !OverridesInside(tokenizer) || !FastFilesInside(tokenizer)
    then None
    else
      match Get(config, "model_type")
      case Str(points) =>
        var modelType := TextOf(points);
        if !IsIdentifier(modelType) then None
        else if !IsParserName(Get(tokenizer, "chat_template_type")) then None
        else if !IsParserName(Get(tokenizer, "tool_parser_type")) then None
        else if custom then (if modelType == ARCHITECTURE then Some(modelType) else None)
        else if world.builtIn(config) then Some(modelType) else None
      case _ => None
  }

  predicate IsBound(v: Json) {
    v.Int? && 0 < v.n <= 1000000000
  }

  /** The context bounds that the model declares. */
  function Bounds(config: Json, tokenizer: Json): set<int> {
    set v | v in {Get(config, "max_position_embeddings"), Get(config, "n_positions"),
                  Get(config, "max_sequence_length"), Get(config, "seq_length"),
                  Get(tokenizer, "model_max_length")} && IsBound(v) :: v.n
  }

  predicate ContextAllowed(config: Json, tokenizer: Json, contextWindow: int) {
    Bounds(config, tokenizer) != {} && forall b :: b in Bounds(config, tokenizer) ==> contextWindow <= b
  }

  /** The model type of a snapshot whose configuration allows the context window. */
  function ModelTypeOf(world: World, disk: Disk, custom: bool, contextWindow: int): Option<string> {
    match (ReadJson(world, disk, CONFIG), ReadJson(world, disk, TOKENIZER_CONFIG))
    case (Some(config), Some(tokenizer)) =>
      var modelType := SupportedArchitecture(world, config, tokenizer, custom);
      if modelType.Some? && ContextAllowed(config, tokenizer, contextWindow) then modelType else None
    case _ => None
  }

  // ---------------------------------------------------------------------------------------------
  // Planning.
  // ---------------------------------------------------------------------------------------------

  /** `size`, `lfs` and `blob` are `None` when they are not an integer or a string. */
  datatype Sibling = Sibling(name: string, size: Option<int>, lfs: Option<Option<string>>, blob: Option<string>)

  datatype Repository = Repository(id: string, sha: Option<string>, siblings: seq<Sibling>)

  predicate IsListed(world: World, sibling: Sibling) {
    IsDataFile(sibling.name) || IsWeight(world.digits, sibling.name)
  }

  function EntryOf(sibling: Sibling): Option<FileEntry> {
    var limit := if IsDataFile(sibling.name) then MAX_METADATA_BYTES else MAX_SNAPSHOT_BYTES;
    if sibling.size.None? || !(0 <= sibling.size.value <= limit) then None
    else
      match sibling.lfs
      case Some(digest) =>
        if digest.Some? && IsHex(digest.value, 64)
        then Some(FileEntry(sibling.name, sibling.size.value, Sha256, digest.value)) else None
      case None =>
        if sibling.blob.Some? && IsHex(sibling.blob.value, 40)
        then Some(FileEntry(sibling.name, sibling.size.value, GitSha1, sibling.blob.value)) else None
  }

  /** The entries of the listed files, in the order of the listing. */
  function Entries(world: World, siblings: seq<Sibling>): Option<seq<FileEntry>> {
    if siblings == [] then Some([])
    else
      var last := siblings[|siblings| - 1];
      match Entries(world, siblings[..|siblings| - 1])
      case None => None
      case Some(before) =>
        if !IsListed(world, last) then Some(before)
        else if |before| >= MAX_FILES || EntryOf(last).None? then None
        else Some(before + [EntryOf(last).value])
  }

  method CollectEntries(world: World, siblings: seq<Sibling>) returns (entries: Option<seq<FileEntry>>)
    ensures entries == Entries(world, siblings)
  {
    var found: seq<FileEntry> := [];
    for k := 0 to |siblings|
      invariant Entries(world, siblings[..k]) == Some(found)
    {
      assert siblings[..k + 1][..k] == siblings[..k];
      if !IsListed(world, siblings[k]) {
        continue;
      }
      var entry := EntryOf(siblings[k]);
      if |found| >= MAX_FILES || entry.None? {
        FailedEntries(world, siblings, k + 1);
        return None;
      }
      found := found + [entry.value];
    }
    assert siblings[..|siblings|] == siblings;
    return Some(found);
  }

  lemma {:induction false} FailedEntries(world: World, siblings: seq<Sibling>, k: nat)
    requires k <= |siblings| && Entries(world, siblings[..k]).None?
    ensures Entries(world, siblings).None?
    decreases |siblings|
  {
    if k == |siblings| {
      assert siblings[..k] == siblings;
    } else {
      assert siblings[..|siblings| - 1][..k] == siblings[..k];
      FailedEntries(world, siblings[..|siblings| - 1], k);
    }
  }

  function First<T>(s: seq<T>, p: T -> bool): Option<T> {
    if s == [] then None else if p(s[0]) then Some(s[0]) else First(s[1..], p)
  }

  /** Every entry of the pinned repository carries its pinned digest. */
  function Pinned(world: World, entries: seq<FileEntry>): (r: seq<FileEntry>)
    requires forall e :: e in entries ==> e.name in world.pins.digests
    ensures |r| == |entries|
  {
    seq(|entries|, i requires 0 <= i < |entries| =>
      FileEntry(entries[i].name, entries[i].bytes, Sha256, world.pins.digests[entries[i].name]))
  }

  function WithArchitecture(world: World, siblings: seq<Sibling>, entries: seq<FileEntry>): Option<seq<FileEntry>> {
    match First(siblings, (s: Sibling) => s.name == ARCHITECTURE_FILE)
    case None => None
    case Some(sibling) =>
      if sibling.size.None? then None
      else
        var all := entries + [FileEntry(ARCHITECTURE_FILE, sibling.size.value, Sha256, "")];
        if forall e :: e in all ==> e.name in world.pins.digests then Some(Pinned(world, all)) else None
  }

  predicate NameLess(s: string, t: string) {
    if s == [] || t == [] then s == [] && t != []
    else if s[0] != t[0] then s[0] < t[0]
    else NameLess(s[1..], t[1..])
  }

  function Insert(x: FileEntry, s: seq<FileEntry>): seq<FileEntry> {
    if s == [] || !NameLess(s[0].name, x.name) then [x] + s else [s[0]] + Insert(x, s[1..])
  }

  function SortedByName(entries: seq<FileEntry>): seq<FileEntry> {
    if entries == [] then [] else Insert(entries[0], SortedByName(entries[1..]))
  }

  /** Files that are already there must be the expected ones. */
  predicate PresentFilesExpected(world: World, disk: Disk, files: seq<FileEntry>) {
    forall e :: e in files && e.name in disk.nodes ==> IsExpected(world, disk, e)
  }

  predicate IsExpectedName(world: World, disk: Disk, files: seq<FileEntry>, name: string) {
    forall e :: e in files && e.name == name ==> IsExpected(world, disk, e)
  }

  /** `plan_model`: `disk` before and `fetched` after the two configuration files are downloaded. */
  function PlanModel(world: World, spec: Spec, repository: Repository, disk: Disk, fetched: Disk): Option<Plan> {
    if !ValidSpec(spec) || repository.sha.None? || !IsHex(repository.sha.value, 40) || repository.id != spec.repository
    then None
    else
      var revision := repository.sha.value;
      var custom := IsCustom(world, spec.repository, revision);
      match PlannedFiles(world, repository.siblings, custom)
      case None => None
      case Some(files) =>
        if !SafeInventory(disk, NamesOf(files), true) || !PresentFilesExpected(world, disk, files) then None
        else if !IsExpectedName(world, fetched, files, CONFIG) then None
        else if !IsExpectedName(world, fetched, files, TOKENIZER_CONFIG) then None
        else
          match ModelTypeOf(world, fetched, custom, spec.contextWindow)
          case None => None
          case Some(modelType) =>
            Some(Plan(Terms(1, spec.repository, revision, spec.alias, spec.contextWindow, spec.maxOutputTokens,
                            modelType, CustomOf(custom), world.pins.versions), files))
  }

  /** The sorted file list of a plan. */
  function PlannedFiles(world: World, siblings: seq<Sibling>, custom: bool): Option<seq<FileEntry>> {
    match Entries(world, siblings)
    case None => None
    case Some(listed) =>
      match (if custom then WithArchitecture(world, siblings, listed) else Some(listed))
      case None => None
      case Some(entries) =>
        var files := SortedByName(entries);
        if ValidSet(world, custom, files) then Some(files) else None
  }

  // ---------------------------------------------------------------------------------------------
  // Preparing.
  // ---------------------------------------------------------------------------------------------

  function ProfileFileOf(world: World, disk: Disk, entry: FileEntry): ProfileFile
    requires IsExpected(world, disk, entry)
  {
    ProfileFile(entry.name, entry.bytes, world.sha256(disk.nodes[entry.name].contents))
  }

  predicate AllExpected(world: World, disk: Disk, files: seq<FileEntry>) {
    forall i :: 0 <= i < |files| ==> IsExpected(world, disk, files[i])
  }

  function ProfileFiles(world: World, disk: Disk, files: seq<FileEntry>): (r: seq<ProfileFile>)
    requires AllExpected(world, disk, files)
    ensures |r| == |files|
  {
    seq(|files|, i requires 0 <= i < |files| && IsExpected(world, disk, files[i]) =>
      ProfileFileOf(world, disk, files[i]))
  }

  method HashFiles(world: World, disk: Disk, files: seq<FileEntry>) returns (hashed: Option<seq<ProfileFile>>)
    ensures hashed == if AllExpected(world, disk, files) then Some(ProfileFiles(world, disk, files)) else None
  {
    var found: seq<ProfileFile> := [];
    for k := 0 to |files|
      invariant |found| == k
      invariant forall i :: 0 <= i < k ==>
                  IsExpected(world, disk, files[i]) && found[i] == ProfileFileOf(world, disk, files[i])
    {
      if !IsExpected(world, disk, files[k]) {
        return None;
      }
      found := found + [ProfileFileOf(world, disk, files[k])];
    }
    assert found == ProfileFiles(world, disk, files);
    return Some(found);
  }

  /** `profile_from_plan`, for a plan whose own checks passed. */
  function ProfileFromPlan(world: World, plan: Plan, disk: Disk, directory: string): Option<Profile> {
    if !ValidPlan(world, plan) || !SafeInventory(disk, NamesOf(plan.files), false) then None
    else if !ValidWeights(world, disk, NameSetOf(plan.files)) || !AllExpected(world, disk, plan.files) then None
    else
      var draft := Profile(PROFILE_KIND, plan.terms, ProfileFiles(world, disk, plan.files), directory, "");
      match Digest(world, draft)
      case None => None
      case Some(digest) => Some(draft.(profileDigest := digest))
  }

  /** `prepare_model`: `disk` before and `fetched` after the snapshot is downloaded. */
  function PrepareModel(world: World, plan: Plan, disk: Disk, fetched: Disk, directory: string): Option<Profile> {
    if !ValidPlan(world, plan) || !SafeInventory(disk, NamesOf(plan.files), true) then None
    else if !PresentFilesExpected(world, disk, plan.files) then None
    else ProfileFromPlan(world, plan, fetched, directory)
  }

  // ---------------------------------------------------------------------------------------------
  // The digest.
  // ---------------------------------------------------------------------------------------------

  function TextJson(s: string): Json {
    Str(PointsOf(s))
  }

  function OptionalText(s: Option<string>): Json {
    match s
    case None => Null
    case Some(value) => TextJson(value)
  }

  function Named(key: string, value: Json): Member {
    Member(PointsOf(key), value)
  }

  function FileJson(file: ProfileFile): Json {
    Obj([Named("bytes", Int(file.bytes)), Named("name", TextJson(file.name)), Named("sha256", TextJson(file.sha256))])
  }

  function FilesJson(files: seq<ProfileFile>): (items: seq<Json>)
    ensures |items| == |files|
  {
    seq(|files|, i requires 0 <= i < |files| => FileJson(files[i]))
  }

  function VersionsJson(versions: seq<(string, string)>): (members: seq<Member>)
    ensures |members| == |versions|
  {
    seq(|versions|, i requires 0 <= i < |versions| => Named(versions[i].0, TextJson(versions[i].1)))
  }

  /** The profile without its digest and its directory, with sorted keys. */
  function IdentityJson(p: Profile): Json {
    var t := p.terms;
    Obj([Named("alias", TextJson(t.alias)),
         Named("contextWindow", Int(t.contextWindow)),
         Named("customArchitecture", OptionalText(t.customArchitecture)),
         Named("files", Arr(FilesJson(p.files))),
         Named("kind", TextJson(p.kind)),
         Named("maxOutputTokens", Int(t.maxOutputTokens)),
         Named("modelType", TextJson(t.modelType)),
         Named("repository", TextJson(t.repository)),
         Named("revision", TextJson(t.revision)),
         Named("runtimeVersions", Obj(VersionsJson(t.runtimeVersions))),
         Named("schemaVersion", Int(t.schemaVersion))])
  }

  function CanonicalBytes(p: Profile): Option<Bytes> {
    match Write(IdentityJson(p))
    case None => None
    case Some(text) => Some(Encode(text))
  }

  function Digest(world: World, p: Profile): Option<string> {
    match CanonicalBytes(p)
    case None => None
    case Some(bytes) => Some(world.sha256(bytes))
  }

  // ---------------------------------------------------------------------------------------------
  // Verifying.
  // ---------------------------------------------------------------------------------------------

  /** A profile lists plain SHA-256 digests. */
  function AsEntries(files: seq<ProfileFile>): (entries: seq<FileEntry>)
    ensures |entries| == |files|
  {
    seq(|files|, i requires 0 <= i < |files| => FileEntry(files[i].name, files[i].bytes, Sha256, files[i].sha256))
  }

  predicate IsAbsolute(path: string) {
    path != "" && path[0] == '/'
  }

  /** `verify_profile`, on the disk of the profile's snapshot directory. */
  predicate VerifyProfile(world: World, p: Profile, disk: Disk) {
    var entries := AsEntries(p.files);
    var custom := IsCustom(world, p.terms.repository, p.terms.revision);
    && p.kind == PROFILE_KIND && Digest(world, p) == Some(p.profileDigest) && ValidTerms(world, p.terms)
    && ValidFiles(world, custom, entries) && IsAbsolute(p.snapshotDirectory)
    && SafeInventory(disk, NamesOf(entries), false) && ValidWeights(world, disk, NameSetOf(entries))
    && AllExpected(world, disk, entries)
    && ModelTypeOf(world, disk, custom, p.terms.contextWindow) == Some(p.terms.modelType)
  }

  method Verify(world: World, p: Profile, disk: Disk) returns (ok: bool)
    ensures ok == VerifyProfile(world, p, disk)
  {
    if p.kind != PROFILE_KIND || Digest(world, p) != Some(p.profileDigest) || !ValidTerms(world, p.terms) {
      return false;
    }
    var custom := IsCustom(world, p.terms.repository, p.terms.revision);
    var entries := AsEntries(p.files);
    ok := CheckFiles(world, custom, entries);
    if !ok || !IsAbsolute(p.snapshotDirectory) {
      return false;
    }
    ok := CheckInventory(disk, NamesOf(entries), false);
    if !ok || !ValidWeights(world, disk, NameSetOf(entries)) {
      return false;
    }
    var hashed := HashFiles(world, disk, entries);
    return hashed.Some? && ModelTypeOf(world, disk, custom, p.terms.contextWindow) == Some(p.terms.modelType);
  }

  method Prepare(world: World, plan: Plan, disk: Disk, fetched: Disk, directory: string)
    returns (profile: Option<Profile>)
    ensures profile == PrepareModel(world, plan, disk, fetched, directory)
  {
    var custom := IsCustom(world, plan.terms.repository, plan.terms.revision);
    if !ValidTerms(world, plan.terms) || !IsIdentifier(plan.terms.modelType) {
      return None;
    }
    var ok := CheckFiles(world, custom, plan.files);
    if !ok {
      return None;
    }
    ok := CheckInventory(disk, NamesOf(plan.files), true);
    if !ok || !PresentFilesExpected(world, disk, plan.files) {
      return None;
    }
    ok := CheckInventory(fetched, NamesOf(plan.files), false);
    if !ok || !ValidWeights(world, fetched, NameSetOf(plan.files)) {
      return None;
    }
    var hashed := HashFiles(world, fetched, plan.files);
    if hashed.None? {
      return None;
    }
    var draft := Profile(PROFILE_KIND, plan.terms, hashed.value, directory, "");
    match Digest(world, draft) {
      case None => return None;
      case Some(digest) => return Some(draft.(profileDigest := digest));
    }
  }
}
