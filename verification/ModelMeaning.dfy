/** The checks of the model store with their numbers and names written out. */
module ModelMeaning {
  import opened Prelude
  import opened Text
  import opened Json
  import opened Kolibri
  import opened Weights
  import opened ModelStore
  import ModelContext

  // ---------------------------------------------------------------------------------------------
  // Specifications and terms.
  // ---------------------------------------------------------------------------------------------

  /** `owner/model` */
  lemma RepositoryMeans(s: string)
    ensures IsRepository(s) <==>
              && |s| <= 255
              && exists owner, name ::
                   IsRepositoryPart(owner) && IsRepositoryPart(name) && s == owner + "/" + name
  {
    if k :| 0 <= k < |s| && s[k] == '/' && IsRepositoryPart(s[..k]) && IsRepositoryPart(s[k + 1..]) {
      assert s == s[..k] + "/" + s[k + 1..];
    }
    if owner, name :| IsRepositoryPart(owner) && IsRepositoryPart(name) && s == owner + "/" + name {
      assert s[..|owner|] == owner && s[|owner| + 1..] == name && s[|owner|] == '/';
    }
  }

  lemma SpecMeans(spec: Spec)
    ensures ValidSpec(spec) <==>
              && IsRepository(spec.repository) && IsRevision(spec.revision) && IsAlias(spec.alias)
              && 1024 <= spec.contextWindow <= 262144
              && 1 <= spec.maxOutputTokens <= 2048 && spec.maxOutputTokens < spec.contextWindow
  {
  }

  /** The terms of a plan or a profile, and when its architecture is custom code. */
  lemma TermsMean(world: World, t: Terms)
    ensures ValidTerms(world, t) <==>
              && t.schemaVersion == 1 && t.runtimeVersions == world.pins.versions && IsHex(t.revision, 40)
              && ValidSpec(Spec(t.repository, t.revision, t.alias, t.contextWindow, t.maxOutputTokens))
              && t.customArchitecture == if t.repository == world.pins.repository && t.revision == world.pins.revision
                                         then Some("kolibri1") else None
  {
  }

  // ---------------------------------------------------------------------------------------------
  // Files.
  // ---------------------------------------------------------------------------------------------

  lemma EntryMeans(world: World, custom: bool, e: FileEntry)
    ensures ValidEntry(world, custom, e) <==>
              && (|| e.name in ModelContext.DATA_FILES || IsWeight(world.digits, e.name)
                  || (custom && e.name == "kolibri1.py"))
              && 0 <= e.bytes <= 137438953472
              && (match e.kind case Sha256 => IsHex(e.hash, 64) case GitSha1 => IsHex(e.hash, 40))
              && (custom ==> e.kind.Sha256? && IsPinnedTo(world, e.name, e.hash))
  {
    ModelContext.DataFileNames(e.name);
  }

  predicate IsPinnedTo(world: World, name: string, hash: string) {
    name in world.pins.digests && world.pins.digests[name] == hash
  }

  predicate Names(files: seq<FileEntry>, name: string) {
    exists e :: e in files && e.name == name
  }

  lemma NameMeans(files: seq<FileEntry>, name: string)
    ensures name in NameSetOf(files) <==> Names(files, name)
  {
    if e :| e in files && e.name == name {
      var i :| 0 <= i < |files| && files[i] == e;
    }
  }

  /** Distinct, configured, with weights, within 128 gibibytes; custom architectures are pinned completely. */
  lemma SetMeans(world: World, custom: bool, files: seq<FileEntry>)
    ensures ValidSet(world, custom, files) <==>
              && (forall i, j :: 0 <= i < j < |files| ==> files[i].name != files[j].name)
              && TotalBytes(files) <= 137438953472
              && Names(files, "config.json") && Names(files, "tokenizer_config.json")
              && (exists e :: e in files && IsWeight(world.digits, e.name))
              && (custom ==> forall name :: Names(files, name) <==> name in world.pins.digests)
  {
    forall name ensures name in NameSetOf(files) <==> Names(files, name) {
      NameMeans(files, name);
    }
    if e :| e in files && IsWeight(world.digits, e.name) {
      assert Names(files, e.name);
      assert e.name in WeightsIn(world.digits, NameSetOf(files));
    }
    if WeightsIn(world.digits, NameSetOf(files)) != {} {
      var name :| name in WeightsIn(world.digits, NameSetOf(files));
      assert Names(files, name);
    }
  }

  lemma FilesMean(world: World, custom: bool, files: seq<FileEntry>)
    ensures ValidFiles(world, custom, files) <==>
              && 1 <= |files| <= 256 && (forall e :: e in files ==> ValidEntry(world, custom, e))
              && ValidSet(world, custom, files)
  {
  }

  // ---------------------------------------------------------------------------------------------
  // The disk.
  // ---------------------------------------------------------------------------------------------

  predicate HoldsFile(disk: Disk, name: string, contents: Bytes) {
    name in disk.nodes && disk.nodes[name] == Plain(contents, true)
  }

  predicate IsHeld(disk: Disk, name: string) {
    name in disk.nodes && disk.nodes[name].Plain? && disk.nodes[name] == Plain(disk.nodes[name].contents, true)
  }

  lemma InventoryMeans(disk: Disk, names: seq<string>, allowMissing: bool)
    ensures SafeInventory(disk, names, allowMissing) <==>
              && disk.isPrivate && disk.cacheIsSafe
              && (forall name :: name in disk.nodes ==> name in names && IsHeld(disk, name))
              && (forall name :: name in names ==> allowMissing || IsHeld(disk, name))
  {
  }

  lemma ExpectedMeans(world: World, disk: Disk, e: FileEntry)
    ensures IsExpected(world, disk, e) <==>
              exists contents ::
                && HoldsFile(disk, e.name, contents) && |contents| == e.bytes
                && (match e.kind
                    case Sha256 => world.sha256(contents) == e.hash
                    case GitSha1 => world.gitSha1(contents) == e.hash)
  {
  }

  lemma ReadMeans(world: World, disk: Disk, name: string, v: Json)
    ensures ReadJson(world, disk, name) == Some(v) <==>
              exists contents ::
                HoldsFile(disk, name, contents) && |contents| <= 33554432 && world.json(contents) == Some(v)
  {
  }

  /** A map from tensors to the files that hold them, with every file a weight and every weight a file. */
  ghost predicate IsIndexOf(index: Json, weights: set<string>) {
    exists members :: ModelContext.Holds(index, "weight_map", Obj(members)) && MapsOnto(members, weights)
  }

  predicate MapsOnto(members: seq<Member>, weights: set<string>) {
    && 1 <= |members| <= 100000
    && (forall m :: m in members ==> m.value.Str? && TextOf(m.value.points) in weights)
    && forall name :: name in weights ==> IsMapped(members, name)
  }

  predicate IsMapped(members: seq<Member>, name: string) {
    exists m :: m in members && m.value.Str? && TextOf(m.value.points) == name
  }

  lemma ValuesMean(members: seq<Member>, weights: set<string>)
    requires forall m :: m in members ==> m.value.Str?
    ensures (set m | m in members :: NameOf(m.value)) == weights
            <==> (forall m :: m in members ==> TextOf(m.value.points) in weights)
                 && forall name :: name in weights ==> IsMapped(members, name)
  {
    var values := set m | m in members :: NameOf(m.value);
    forall name ensures name in values <==> IsMapped(members, name) {
    }
    forall m | m in members ensures TextOf(m.value.points) in values {
      assert NameOf(m.value) in values;
    }
  }

  lemma IndexMeans(index: Json, weights: set<string>)
    ensures Mapped(index) == Some(weights) <==> IsIndexOf(index, weights)
  {
    match (if index.Obj? then Field(index.members, PointsOf("weight_map")) else None)
    case Some(Obj(members)) =>
      if forall m :: m in members ==> m.value.Str? {
        ValuesMean(members, weights);
      }
      assert Mapped(index) == Some(weights) <==> MapsOnto(members, weights);
    case _ =>
  }

  /** The weights among the names are complete, and an index names exactly them. */
  lemma WeightsMean(world: World, disk: Disk, names: set<string>, weights: set<string>)
    requires forall name :: name in weights <==> name in names && IsWeight(world.digits, name)
    ensures ValidWeights(world, disk, names) <==>
              && NamesAccepted(world.digits, weights)
              && ("model.safetensors.index.json" in disk.nodes ==>
                    exists index ::
                      ReadJson(world, disk, "model.safetensors.index.json") == Some(index) && IsIndexOf(index, weights))
  {
    assert WeightsIn(world.digits, names) == weights;
    if ReadJson(world, disk, INDEX_FILE).Some? {
      IndexMeans(ReadJson(world, disk, INDEX_FILE).value, weights);
    }
  }

  // ---------------------------------------------------------------------------------------------
  // The listing of a repository.
  // ---------------------------------------------------------------------------------------------

  /** What a listed file becomes: large files carry a SHA-256, small ones the identifier of a blob. */
  lemma ListedMeans(sibling: Sibling, e: FileEntry)
    ensures EntryOf(sibling) == Some(e) <==>
              && e.name == sibling.name && sibling.size == Some(e.bytes)
              && 0 <= e.bytes <= (if sibling.name in ModelContext.DATA_FILES then 33554432 else 137438953472)
              && (match sibling.lfs
                  case Some(digest) => digest == Some(e.hash) && e.kind == Sha256 && IsHex(e.hash, 64)
                  case None => sibling.blob == Some(e.hash) && e.kind == GitSha1 && IsHex(e.hash, 40))
  {
    ModelContext.DataFileNames(sibling.name);
  }

  /** The siblings that belong to a model. */
  predicate BelongsTo(world: World, sibling: Sibling) {
    sibling.name in ModelContext.DATA_FILES || IsWeight(world.digits, sibling.name)
  }

  ghost predicate ComesFrom(world: World, siblings: seq<Sibling>, e: FileEntry) {
    exists s :: s in siblings && BelongsTo(world, s) && EntryOf(s) == Some(e)
  }

  /** At most 256 of them are listed, each as it should be, and nothing else is. */
  lemma {:induction false} EntriesMean(world: World, siblings: seq<Sibling>)
    requires Entries(world, siblings).Some?
    ensures var entries := Entries(world, siblings).value;
            && |entries| <= 256
            && (forall s :: s in siblings && BelongsTo(world, s) ==> EntryOf(s).Some? && EntryOf(s).value in entries)
            && forall e :: e in entries <==> ComesFrom(world, siblings, e)
    decreases |siblings|
  {
    if siblings != [] {
      var front, last := siblings[..|siblings| - 1], siblings[|siblings| - 1];
      EntriesMean(world, front);
      ModelContext.DataFileNames(last.name);
      assert forall s :: s in siblings <==> s in front || s == last;
      var entries, before := Entries(world, siblings).value, Entries(world, front).value;
      forall e ensures e in entries <==> ComesFrom(world, siblings, e) {
        assert ComesFrom(world, siblings, e) <==>
          ComesFrom(world, front, e) || (BelongsTo(world, last) && EntryOf(last) == Some(e));
      }
    }
  }

  // ---------------------------------------------------------------------------------------------
  // The order of a plan.
  // ---------------------------------------------------------------------------------------------

  /** The texts agree up to `k`, where `s` ends or has the smaller character. */
  predicate LessFrom(s: string, t: string, k: nat) {
    k <= |s| && k < |t| && s[..k] == t[..k] && (k == |s| || s[k] < t[k])
  }

  ghost predicate ComesBefore(s: string, t: string) {
    exists k :: LessFrom(s, t, k)
  }

  lemma {:induction false} LessIsFirstDifference(s: string, t: string) returns (k: nat)
    requires NameLess(s, t)
    ensures LessFrom(s, t, k)
  {
    if s == [] || s[0] != t[0] {
      k := 0;
    } else {
      k := LessIsFirstDifference(s[1..], t[1..]);
      assert s[..k + 1] == [s[0]] + s[1..][..k] && t[..k + 1] == [t[0]] + t[1..][..k];
      k := k + 1;
    }
  }

  lemma {:induction false} NamesAreOrdered(s: string, t: string, u: string)
    ensures NameLess(s, t) || NameLess(t, s) || s == t
    ensures NameLess(s, t) && NameLess(t, u) ==> NameLess(s, u)
    ensures !(NameLess(s, t) && NameLess(t, s))
    decreases |s| + |t| + |u|
  {
    if s != [] && t != [] && s[0] == t[0] {
      NamesAreOrdered(s[1..], t[1..], if u != [] then u[1..] else []);
      HeadTail(s);
      HeadTail(t);
    }
  }

  predicate InOrder(files: seq<FileEntry>) {
    forall i, j :: 0 <= i < j < |files| ==> NameLess(files[i].name, files[j].name)
  }

  lemma {:induction false} InsertKeepsOrder(x: FileEntry, files: seq<FileEntry>)
    requires InOrder(files) && forall e :: e in files ==> e.name != x.name
    ensures InOrder(Insert(x, files))
    ensures forall e :: e in Insert(x, files) <==> e == x || e in files
  {
    if files != [] {
      NamesAreOrdered(files[0].name, x.name, "");
      if NameLess(files[0].name, x.name) {
        var rest := Insert(x, files[1..]);
        InsertKeepsOrder(x, files[1..]);
        forall i | 0 <= i < |rest| ensures NameLess(files[0].name, rest[i].name) {
          assert rest[i] in rest;
          if rest[i] != x {
            var k :| 0 <= k < |files[1..]| && files[1..][k] == rest[i];
          }
        }
      } else {
        forall i | 0 <= i < |files| ensures NameLess(x.name, files[i].name) {
          NamesAreOrdered(x.name, files[0].name, files[i].name);
        }
      }
    }
  }

  lemma {:induction false} SortedIsOrdered(entries: seq<FileEntry>)
    requires forall i, j :: 0 <= i < j < |entries| ==> entries[i].name != entries[j].name
    ensures InOrder(SortedByName(entries))
    ensures forall e :: e in SortedByName(entries) <==> e in entries
  {
    if entries != [] {
      SortedIsOrdered(entries[1..]);
      InsertKeepsOrder(entries[0], SortedByName(entries[1..]));
    }
  }

  /** The first sibling that is the custom architecture has this size. */
  predicate ArchitectureHas(siblings: seq<Sibling>, k: nat, bytes: int) {
    && k < |siblings| && siblings[k].name == "kolibri1.py" && siblings[k].size == Some(bytes)
    && forall j :: 0 <= j < k ==> siblings[j].name != "kolibri1.py"
  }

  lemma {:induction false} FirstMeans(siblings: seq<Sibling>, p: Sibling -> bool) returns (k: nat)
    requires First(siblings, p).Some?
    ensures k < |siblings| && First(siblings, p) == Some(siblings[k]) && p(siblings[k])
    ensures forall j :: 0 <= j < k ==> !p(siblings[j])
  {
    if p(siblings[0]) {
      k := 0;
    } else {
      k := FirstMeans(siblings[1..], p);
      k := k + 1;
      assert forall j :: 0 < j < k ==> siblings[j] == siblings[1..][j - 1];
    }
  }

  /** An entry of a custom plan: listed, or the architecture; its hash is the pinned digest either way. */
  ghost predicate IsPinnedEntry(world: World, siblings: seq<Sibling>, e: FileEntry) {
    && e.kind == Sha256 && IsPinnedTo(world, e.name, e.hash)
    && (|| (exists f :: ComesFrom(world, siblings, f) && f.name == e.name && f.bytes == e.bytes)
        || (e.name == "kolibri1.py" && exists k :: ArchitectureHas(siblings, k, e.bytes)))
  }

  lemma PinnedMeans(world: World, siblings: seq<Sibling>, listed: seq<FileEntry>, e: FileEntry)
    requires Entries(world, siblings) == Some(listed) && WithArchitecture(world, siblings, listed).Some?
    ensures e in WithArchitecture(world, siblings, listed).value <==> IsPinnedEntry(world, siblings, e)
  {
    EntriesMean(world, siblings);
    var rule := (s: Sibling) => s.name == ARCHITECTURE_FILE;
    var k := FirstMeans(siblings, rule);
    var size := siblings[k].size.value;
    var all := listed + [FileEntry(ARCHITECTURE_FILE, size, Sha256, "")];
    assert ArchitectureHas(siblings, k, size);
    assert forall j, bytes :: ArchitectureHas(siblings, j, bytes) ==> j == k && bytes == size;
    var pinned := Pinned(world, all);
    if e in pinned {
      var i :| 0 <= i < |pinned| && pinned[i] == e;
      assert i < |listed| ==> listed[i] in listed && ComesFrom(world, siblings, listed[i]);
    }
    if IsPinnedEntry(world, siblings, e) {
      if f :| ComesFrom(world, siblings, f) && f.name == e.name && f.bytes == e.bytes {
        var i :| 0 <= i < |listed| && listed[i] == f;
        assert all[i] == f && pinned[i] == e;
      } else {
        assert pinned[|listed|] == e;
      }
    }
  }

  /** The files of a plan: what belongs to the model, each once, in ascending order of names. */
  lemma PlannedMeans(world: World, siblings: seq<Sibling>, custom: bool, files: seq<FileEntry>)
    requires PlannedFiles(world, siblings, custom) == Some(files)
    ensures forall e :: e in files <==>
                          if custom then IsPinnedEntry(world, siblings, e) else ComesFrom(world, siblings, e)
    ensures forall i, j :: 0 <= i < j < |files| ==> ComesBefore(files[i].name, files[j].name)
  {
    var listed := Entries(world, siblings).value;
    EntriesMean(world, siblings);
    var entries := if custom then WithArchitecture(world, siblings, listed).value else listed;
    SortedWasDistinct(entries);
    SortedIsOrdered(entries);
    if custom {
      forall e ensures e in entries <==> IsPinnedEntry(world, siblings, e) {
        PinnedMeans(world, siblings, listed, e);
      }
    }
    forall i, j | 0 <= i < j < |files| ensures ComesBefore(files[i].name, files[j].name) {
      var k := LessIsFirstDifference(files[i].name, files[j].name);
    }
  }

  lemma {:induction false} InsertedNames(x: FileEntry, files: seq<FileEntry>)
    requires DistinctFiles(Insert(x, files))
    ensures DistinctFiles(files) && forall e :: e in files ==> e.name != x.name
  {
    var inserted := Insert(x, files);
    if files != [] && NameLess(files[0].name, x.name) {
      var rest := Insert(x, files[1..]);
      assert rest == inserted[1..] && inserted[0] == files[0];
      InsertedNames(x, files[1..]);
      forall e | e in rest ensures e.name != files[0].name {
        var k :| 0 <= k < |rest| && rest[k] == e;
        assert inserted[k + 1] == e;
      }
      forall e | e in files[1..] ensures e in rest {
        InsertHolds(x, files[1..], e);
      }
      InsertHolds(x, files[1..], x);
    } else {
      assert inserted == [x] + files;
      assert forall k :: 0 <= k < |files| ==> inserted[k + 1] == files[k];
      forall e | e in files ensures e.name != x.name {
        var k :| 0 <= k < |files| && files[k] == e;
        assert inserted[0] == x && inserted[k + 1] == e;
      }
    }
  }

  lemma {:induction false} InsertHolds(x: FileEntry, files: seq<FileEntry>, e: FileEntry)
    ensures e in Insert(x, files) <==> e == x || e in files
  {
    if files != [] && NameLess(files[0].name, x.name) {
      InsertHolds(x, files[1..], e);
    }
  }

  lemma {:induction false} SortHolds(entries: seq<FileEntry>, e: FileEntry)
    ensures e in SortedByName(entries) <==> e in entries
  {
    if entries != [] {
      SortHolds(entries[1..], e);
      InsertHolds(entries[0], SortedByName(entries[1..]), e);
    }
  }

  lemma {:induction false} SortedWasDistinct(entries: seq<FileEntry>)
    requires DistinctFiles(SortedByName(entries))
    ensures DistinctFiles(entries)
  {
    if entries != [] {
      InsertedNames(entries[0], SortedByName(entries[1..]));
      SortedWasDistinct(entries[1..]);
      forall j | 0 < j < |entries| ensures entries[j].name != entries[0].name {
        SortHolds(entries[1..], entries[j]);
      }
    }
  }

  // ---------------------------------------------------------------------------------------------
  // The order of the hashed identity.
  // ---------------------------------------------------------------------------------------------

  function IdentityKeys(): seq<string> {
    ["alias", "contextWindow", "customArchitecture", "files", "kind", "maxOutputTokens", "modelType", "repository",
     "revision", "runtimeVersions", "schemaVersion"]
  }

  /** Where each key first differs from the next one. */
  function Differences(): seq<nat> {
    [0, 1, 0, 0, 0, 1, 0, 2, 1, 0]
  }

  /** The identity has these fields, in ascending order of their names. */
  lemma IdentityIsSorted(p: Profile)
    ensures IdentityJson(p).Obj? && |IdentityJson(p).members| == |IdentityKeys()| == 11
    ensures forall i :: 0 <= i < 11 ==> IdentityJson(p).members[i].key == PointsOf(IdentityKeys()[i])
    ensures forall i :: 0 <= i < 10 ==> LessFrom(IdentityKeys()[i], IdentityKeys()[i + 1], Differences()[i])
  {
  }
}
