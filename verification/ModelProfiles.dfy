/** From plan to verified profile and back: the round trip, and what the digest binds. */
module ModelProfiles {
  import opened Prelude
  import opened Text
  import opened Utf8
  import opened Json
  import opened JsonRoundTrip
  import opened Kolibri
  import opened Weights
  import opened ModelStore

  // ---------------------------------------------------------------------------------------------
  // A prepared profile is verified.
  // ---------------------------------------------------------------------------------------------

  /** The hash functions print hexadecimal digests; nothing else is assumed of them everywhere. */
  ghost predicate PrintsDigests(world: World) {
    forall contents :: IsHex(world.sha256(contents), 64)
  }

  /** Two contents with the same digest are the same. */
  predicate NoCollision(hash: Bytes -> string, a: Bytes, b: Bytes) {
    hash(a) == hash(b) ==> a == b
  }

  /** The file of that name holds contents whose digests do not collide on the two disks. */
  predicate SameWhenHashed(world: World, a: Disk, b: Disk, name: string) {
    IsPrivateFile(a, name) && IsPrivateFile(b, name) ==>
      && NoCollision(world.sha256, a.nodes[name].contents, b.nodes[name].contents)
      && NoCollision(world.gitSha1, a.nodes[name].contents, b.nodes[name].contents)
  }

  lemma EntriesOfProfile(world: World, disk: Disk, files: seq<FileEntry>)
    requires AllExpected(world, disk, files)
    ensures var entries := AsEntries(ProfileFiles(world, disk, files));
            && |entries| == |files| && NamesOf(entries) == NamesOf(files)
            && NameSetOf(entries) == NameSetOf(files) && TotalBytes(entries) == TotalBytes(files)
            && AllExpected(world, disk, entries)
  {
    var entries := AsEntries(ProfileFiles(world, disk, files));
    assert forall i :: 0 <= i < |files| ==>
        entries[i].name == files[i].name && entries[i].bytes == files[i].bytes && IsExpected(world, disk, entries[i]);
    SameBytes(files, entries);
    assert NamesOf(entries) == NamesOf(files);
    SameNames(files, entries);
  }

  lemma SameNames(a: seq<FileEntry>, b: seq<FileEntry>)
    requires |a| == |b| && forall i :: 0 <= i < |a| ==> a[i].name == b[i].name
    ensures NameSetOf(a) == NameSetOf(b)
  {
    forall name ensures name in NameSetOf(a) <==> name in NameSetOf(b) {
      if name in NameSetOf(a) {
        var i :| 0 <= i < |a| && a[i].name == name;
        assert b[i].name == name;
      }
      if name in NameSetOf(b) {
        var i :| 0 <= i < |b| && b[i].name == name;
        assert a[i].name == name;
      }
    }
  }

  lemma {:induction false} SameBytes(a: seq<FileEntry>, b: seq<FileEntry>)
    requires |a| == |b| && forall i :: 0 <= i < |a| ==> a[i].bytes == b[i].bytes
    ensures TotalBytes(a) == TotalBytes(b)
    decreases |a|
  {
    if a != [] {
      SameBytes(a[..|a| - 1], b[..|b| - 1]);
    }
  }

  /** A pinned file that is the expected one has its pinned digest in the profile as well. */
  lemma EntryStaysValid(world: World, disk: Disk, custom: bool, entry: FileEntry)
    requires PrintsDigests(world) && ValidEntry(world, custom, entry) && IsExpected(world, disk, entry)
    ensures ValidEntry(
              world, custom,
              FileEntry(entry.name, entry.bytes, Sha256, world.sha256(disk.nodes[entry.name].contents)))
  {
  }

  lemma FilesStayValid(world: World, disk: Disk, custom: bool, files: seq<FileEntry>)
    requires PrintsDigests(world) && ValidFiles(world, custom, files) && AllExpected(world, disk, files)
    ensures ValidFiles(world, custom, AsEntries(ProfileFiles(world, disk, files)))
  {
    var entries := AsEntries(ProfileFiles(world, disk, files));
    EntriesOfProfile(world, disk, files);
    forall i | 0 <= i < |entries| ensures ValidEntry(world, custom, entries[i]) {
      EntryStaysValid(world, disk, custom, files[i]);
    }
    assert forall i :: 0 <= i < |files| ==> entries[i].name == files[i].name;
  }

  /** The part of the verification that does not look into the configuration. */
  lemma PreparedIsSound(world: World, plan: Plan, disk: Disk, directory: string)
    requires PrintsDigests(world) && ProfileFromPlan(world, plan, disk, directory).Some?
    ensures var p := ProfileFromPlan(world, plan, disk, directory).value;
            var entries := AsEntries(p.files);
            && p.kind == PROFILE_KIND && p.terms == plan.terms && p.snapshotDirectory == directory
            && Digest(world, p) == Some(p.profileDigest) && ValidTerms(world, p.terms)
            && ValidFiles(world, IsCustom(world, p.terms.repository, p.terms.revision), entries)
            && SafeInventory(disk, NamesOf(entries), false) && ValidWeights(world, disk, NameSetOf(entries))
            && AllExpected(world, disk, entries)
  {
    var p := ProfileFromPlan(world, plan, disk, directory).value;
    EntriesOfProfile(world, disk, plan.files);
    FilesStayValid(world, disk, IsCustom(world, plan.terms.repository, plan.terms.revision), plan.files);
    DigestIgnores(world, p, p.snapshotDirectory, "");
  }

  /** An expected file read on two disks has the same contents on both. */
  lemma ExpectedIsSame(world: World, a: Disk, b: Disk, entry: FileEntry)
    requires IsExpected(world, a, entry) && IsExpected(world, b, entry) && SameWhenHashed(world, a, b, entry.name)
    ensures a.nodes[entry.name].contents == b.nodes[entry.name].contents
    ensures ReadJson(world, a, entry.name) == ReadJson(world, b, entry.name)
  {
  }

  lemma NamedFile(files: seq<FileEntry>, name: string) returns (entry: FileEntry)
    requires name in NameSetOf(files)
    ensures entry in files && entry.name == name
  {
    var i :| 0 <= i < |files| && files[i].name == name;
    entry := files[i];
  }

  lemma ConfigurationIsSame(world: World, a: Disk, b: Disk, files: seq<FileEntry>, name: string)
    requires name in NameSetOf(files) && IsExpectedName(world, a, files, name) && AllExpected(world, b, files)
    requires SameWhenHashed(world, a, b, name)
    ensures ReadJson(world, a, name) == ReadJson(world, b, name)
  {
    var entry := NamedFile(files, name);
    ExpectedIsSame(world, a, b, entry);
  }

  /**
   The round trip. A profile that `prepare_model` makes from a plan of `plan_model` is verified on the
   prepared disk, whatever happened to the disk in between, unless a configuration file was replaced by
   one with the same digest.
   */
  lemma PreparedIsVerified(
      world: World, spec: Spec, repository: Repository, before: Disk, planned: Disk,
      later: Disk, prepared: Disk, directory: string)
    requires PrintsDigests(world) && IsAbsolute(directory)
    requires PlanModel(world, spec, repository, before, planned).Some?
    requires var plan := PlanModel(world, spec, repository, before, planned).value;
             PrepareModel(world, plan, later, prepared, directory).Some?
    requires SameWhenHashed(world, planned, prepared, CONFIG)
    requires SameWhenHashed(world, planned, prepared, TOKENIZER_CONFIG)
    ensures var plan := PlanModel(world, spec, repository, before, planned).value;
            VerifyProfile(world, PrepareModel(world, plan, later, prepared, directory).value, prepared)
  {
    var plan := PlanModel(world, spec, repository, before, planned).value;
    PreparedIsSound(world, plan, prepared, directory);
    PlanIsFetched(world, spec, repository, before, planned);
    ConfigurationIsSame(world, planned, prepared, plan.files, CONFIG);
    ConfigurationIsSame(world, planned, prepared, plan.files, TOKENIZER_CONFIG);
  }

  /** What a plan records of the disk on which its configuration files were fetched. */
  lemma PlanIsFetched(world: World, spec: Spec, repository: Repository, before: Disk, planned: Disk)
    requires PlanModel(world, spec, repository, before, planned).Some?
    ensures var plan := PlanModel(world, spec, repository, before, planned).value;
            && IsExpectedName(world, planned, plan.files, CONFIG)
            && IsExpectedName(world, planned, plan.files, TOKENIZER_CONFIG)
            && CONFIG in NameSetOf(plan.files) && TOKENIZER_CONFIG in NameSetOf(plan.files)
            && SpecOf(plan.terms).contextWindow == spec.contextWindow
            && ModelTypeOf(world, planned, IsCustom(world, plan.terms.repository, plan.terms.revision),
                           plan.terms.contextWindow) == Some(plan.terms.modelType)
  {
  }

  // ---------------------------------------------------------------------------------------------
  // When a plan passes its own validation.
  // ---------------------------------------------------------------------------------------------

  lemma {:induction false} InsertKeeps(x: FileEntry, s: seq<FileEntry>)
    ensures |Insert(x, s)| == |s| + 1
    ensures forall e :: e in Insert(x, s) <==> e == x || e in s
  {
    if s != [] && NameLess(s[0].name, x.name) {
      InsertKeeps(x, s[1..]);
    }
  }

  lemma {:induction false} SortKeeps(entries: seq<FileEntry>)
    ensures |SortedByName(entries)| == |entries|
    ensures forall e :: e in SortedByName(entries) <==> e in entries
  {
    if entries != [] {
      SortKeeps(entries[1..]);
      InsertKeeps(entries[0], SortedByName(entries[1..]));
    }
  }

  lemma {:induction false} ListedAreValid(world: World, siblings: seq<Sibling>)
    requires Entries(world, siblings).Some?
    ensures |Entries(world, siblings).value| <= MAX_FILES
    ensures forall e :: e in Entries(world, siblings).value ==> ValidEntry(world, false, e)
    decreases |siblings|
  {
    if siblings != [] {
      ListedAreValid(world, siblings[..|siblings| - 1]);
    }
  }

  predicate SanePins(pins: Pins) {
    |pins.digests| <= MAX_FILES && forall name :: name in pins.digests ==> IsHex(pins.digests[name], 64)
  }

  /** All that a planned file may lack is a size that is in bounds. */
  predicate ValidButForSize(world: World, custom: bool, e: FileEntry) {
    ValidEntry(world, custom, e.(bytes := 0))
  }

  lemma PlannedAreValid(world: World, siblings: seq<Sibling>, custom: bool)
    requires SanePins(world.pins) && PlannedFiles(world, siblings, custom).Some?
    ensures var files := PlannedFiles(world, siblings, custom).value;
            && (forall e :: e in files ==> ValidButForSize(world, custom, e)) && ValidSet(world, custom, files)
            && (!custom ==> |files| <= MAX_FILES && forall e :: e in files ==> ValidEntry(world, custom, e))
  {
    ListedAreValid(world, siblings);
    var listed := Entries(world, siblings).value;
    if custom {
      var pinned := WithArchitecture(world, siblings, listed).value;
      SortKeeps(pinned);
      forall e | e in pinned ensures ValidButForSize(world, custom, e) {
        PinnedIsValid(world, siblings, listed, e);
      }
    } else {
      SortKeeps(listed);
    }
  }

  lemma PinnedIsValid(world: World, siblings: seq<Sibling>, listed: seq<FileEntry>, e: FileEntry)
    requires SanePins(world.pins) && forall x :: x in listed ==> ValidEntry(world, false, x)
    requires WithArchitecture(world, siblings, listed).Some? && e in WithArchitecture(world, siblings, listed).value
    ensures ValidButForSize(world, true, e)
  {
    var pinned := WithArchitecture(world, siblings, listed).value;
    var i :| 0 <= i < |pinned| && pinned[i] == e;
    assert i < |listed| ==> listed[i] in listed;
  }

  lemma {:induction false} PartIsBounded(files: seq<FileEntry>, i: nat)
    requires i < |files| && forall k :: 0 <= k < |files| ==> files[k].bytes >= 0
    ensures 0 <= files[i].bytes <= TotalBytes(files)
    decreases |files|
  {
    var n := |files| - 1;
    if n > 0 {
      PartIsBounded(files[..n], if i < n then i else 0);
    }
  }

  lemma {:induction false} DistinctCount(files: seq<FileEntry>)
    requires DistinctFiles(files)
    ensures |NameSetOf(files)| == |files|
    decreases |files|
  {
    if files != [] {
      var n := |files| - 1;
      DistinctCount(files[..n]);
      NextFile(files, n);
      assert files[..n + 1] == files;
    } else {
      assert NameSetOf(files) == {};
    }
  }

  /**
   A plan passes its own validation, except that the size of the custom architecture file, which the
   planner takes over unchecked, must not be negative.
   */
  lemma PlanIsValid(world: World, spec: Spec, repository: Repository, before: Disk, planned: Disk)
    requires SanePins(world.pins) && PlanModel(world, spec, repository, before, planned).Some?
    ensures var plan := PlanModel(world, spec, repository, before, planned).value;
            ValidPlan(world, plan) <==> forall i :: 0 <= i < |plan.files| ==> plan.files[i].bytes >= 0
    ensures !IsCustom(world, spec.repository, repository.sha.value) ==>
              ValidPlan(world, PlanModel(world, spec, repository, before, planned).value)
  {
    var plan := PlanModel(world, spec, repository, before, planned).value;
    var custom := IsCustom(world, spec.repository, repository.sha.value);
    PlannedAreValid(world, repository.siblings, custom);
    PlanTermsAreValid(world, spec, repository, before, planned);
    if forall i :: 0 <= i < |plan.files| ==> plan.files[i].bytes >= 0 {
      NonNegativeIsValid(world, custom, plan.files);
    }
  }

  lemma NonNegativeIsValid(world: World, custom: bool, files: seq<FileEntry>)
    requires SanePins(world.pins) && ValidSet(world, custom, files) && (!custom ==> |files| <= MAX_FILES)
    requires forall e :: e in files ==> ValidButForSize(world, custom, e)
    requires forall i :: 0 <= i < |files| ==> files[i].bytes >= 0
    ensures ValidFiles(world, custom, files)
  {
    forall i | 0 <= i < |files| ensures ValidEntry(world, custom, files[i]) {
      PartIsBounded(files, i);
      assert files[i] in files;
    }
    DistinctCount(files);
  }

  lemma PlanTermsAreValid(world: World, spec: Spec, repository: Repository, before: Disk, planned: Disk)
    requires PlanModel(world, spec, repository, before, planned).Some?
    ensures var terms := PlanModel(world, spec, repository, before, planned).value.terms;
            ValidTerms(world, terms) && IsIdentifier(terms.modelType)
  {
    HexIsRevision(repository.sha.value);
  }

  lemma HexIsRevision(s: string)
    requires IsHex(s, 40)
    ensures IsRevision(s)
  {
  }

  // ---------------------------------------------------------------------------------------------
  // What the digest binds.
  // ---------------------------------------------------------------------------------------------

  /** The digest covers neither itself nor the directory. */
  lemma DigestIgnores(world: World, p: Profile, directory: string, digest: string)
    ensures Digest(world, p.(snapshotDirectory := directory, profileDigest := digest)) == Digest(world, p)
  {
  }

  /** A verified snapshot stays verified when its directory is moved as it is. */
  lemma MovedIsVerified(world: World, p: Profile, disk: Disk, directory: string)
    requires VerifyProfile(world, p, disk) && IsAbsolute(directory)
    ensures VerifyProfile(world, p.(snapshotDirectory := directory), disk)
  {
    DigestIgnores(world, p, directory, p.profileDigest);
  }

  /** Everything but the digest and the directory. */
  predicate SameIdentity(p: Profile, q: Profile) {
    p.kind == q.kind && p.terms == q.terms && p.files == q.files
  }

  lemma PointsInjective(s: string, t: string)
    requires PointsOf(s) == PointsOf(t)
    ensures s == t
  {
    assert forall i :: 0 <= i < |s| ==> PointsOf(s)[i] == s[i] as int && PointsOf(t)[i] == t[i] as int;
  }

  lemma FilesInjective(a: seq<ProfileFile>, b: seq<ProfileFile>)
    requires FilesJson(a) == FilesJson(b)
    ensures a == b
  {
    assert |a| == |FilesJson(a)| == |b|;
    forall i | 0 <= i < |a| ensures a[i] == b[i] {
      assert FilesJson(a)[i] == FileJson(a[i]) && FilesJson(b)[i] == FileJson(b[i]);
      FileInjective(a[i], b[i]);
    }
  }

  lemma FileInjective(a: ProfileFile, b: ProfileFile)
    requires FileJson(a) == FileJson(b)
    ensures a == b
  {
    var x, y := FileJson(a).members, FileJson(b).members;
    assert x[0].value == y[0].value && x[1].value == y[1].value && x[2].value == y[2].value;
    PointsInjective(a.name, b.name);
    PointsInjective(a.sha256, b.sha256);
  }

  lemma OptionalInjective(a: Option<string>, b: Option<string>)
    requires OptionalText(a) == OptionalText(b)
    ensures a == b
  {
    if a.Some? && b.Some? {
      PointsInjective(a.value, b.value);
    }
  }

  /** The canonical value determines the identity, the pinned versions aside. */
  lemma IdentityInjective(p: Profile, q: Profile)
    requires IdentityJson(p) == IdentityJson(q) && p.terms.runtimeVersions == q.terms.runtimeVersions
    ensures SameIdentity(p, q)
  {
    var x, y := IdentityJson(p).members, IdentityJson(q).members;
    assert forall i :: 0 <= i < 11 ==> x[i].value == y[i].value;
    PointsInjective(p.terms.alias, q.terms.alias);
    assert x[1].value == Int(p.terms.contextWindow) && y[1].value == Int(q.terms.contextWindow);
    OptionalInjective(p.terms.customArchitecture, q.terms.customArchitecture);
    FilesInjective(p.files, q.files);
    PointsInjective(p.kind, q.kind);
    PointsInjective(p.terms.modelType, q.terms.modelType);
    PointsInjective(p.terms.repository, q.terms.repository);
    PointsInjective(p.terms.revision, q.terms.revision);
  }

  // The canonical value is one that the writer and the decoder agree on.

  predicate DistinctVersions(versions: seq<(string, string)>) {
    forall i, j :: 0 <= i < j < |versions| ==> versions[i].0 != versions[j].0
  }

  function NoFloats(): FloatReader {
    (token: string) => None
  }

  lemma VersionsAreCanonical(versions: seq<(string, string)>)
    requires DistinctVersions(versions)
    ensures Canonical(NoFloats(), Obj(VersionsJson(versions)))
  {
    var members := VersionsJson(versions);
    forall i, j | 0 <= i < j < |members| ensures members[i].key != members[j].key {
      if members[i].key == members[j].key {
        PointsInjective(versions[i].0, versions[j].0);
      }
    }
  }

  lemma FileIsCanonical(file: ProfileFile)
    requires WriteInt(file.bytes).Some?
    ensures Canonical(NoFloats(), FileJson(file))
  {
    var members := FileJson(file).members;
    assert |members[0].key| == 5 && |members[1].key| == 4 && |members[2].key| == 6;
  }

  predicate IntsFit(p: Profile) {
    && WriteInt(p.terms.contextWindow).Some? && WriteInt(p.terms.maxOutputTokens).Some?
    && WriteInt(p.terms.schemaVersion).Some?
    && forall i :: 0 <= i < |p.files| ==> WriteInt(p.files[i].bytes).Some?
  }

  lemma {:induction false} ItemsWritten(items: seq<Json>, i: nat)
    requires i < |items| && WriteItems(items).Some?
    ensures Write(items[i]).Some?
  {
    if i > 0 {
      ItemsWritten(items[1..], i - 1);
    }
  }

  lemma {:induction false} MembersWritten(members: seq<Member>, i: nat)
    requires i < |members| && WriteMembers(members).Some?
    ensures Write(members[i].value).Some?
  {
    if i > 0 {
      MembersWritten(members[1..], i - 1);
    }
  }

  lemma WrittenFile(file: ProfileFile)
    requires Write(FileJson(file)).Some?
    ensures WriteInt(file.bytes).Some?
  {
    MembersWritten(FileJson(file).members, 0);
  }

  lemma WrittenIdentity(p: Profile)
    requires Write(IdentityJson(p)).Some?
    ensures IntsFit(p)
  {
    var members := IdentityJson(p).members;
    MembersWritten(members, 1);
    MembersWritten(members, 3);
    MembersWritten(members, 5);
    MembersWritten(members, 10);
    assert members[3].value == Arr(FilesJson(p.files));
    forall i | 0 <= i < |p.files| ensures WriteInt(p.files[i].bytes).Some? {
      ItemsWritten(FilesJson(p.files), i);
      WrittenFile(p.files[i]);
    }
  }

  lemma IdentityKeysAreUnique(p: Profile)
    ensures UniqueKeys(IdentityJson(p).members)
  {
    var m := IdentityJson(p).members;
    assert m[0].key[0] == 'a' as int && m[3].key[0] == 'f' as int;
    assert m[1].key[0] == 'c' as int && m[10].key[0] == 's' as int;
    assert m[5].key[0] == 'm' as int && m[9].key[0] == 'r' as int;
    assert |m[0].key| == |m[3].key| == 5 && |m[1].key| == |m[10].key| == 13 && |m[2].key| == 18 && |m[4].key| == 4;
    assert |m[5].key| == |m[9].key| == 15 && |m[6].key| == 9 && |m[7].key| == 10 && |m[8].key| == 8;
  }

  lemma FilesAreCanonical(p: Profile)
    requires IntsFit(p)
    ensures Canonical(NoFloats(), Arr(FilesJson(p.files)))
  {
    forall item | item in FilesJson(p.files) ensures Canonical(NoFloats(), item) {
      var i :| 0 <= i < |p.files| && FilesJson(p.files)[i] == item;
      FileIsCanonical(p.files[i]);
    }
  }

  lemma IdentityValueIsCanonical(p: Profile, i: nat)
    requires IntsFit(p) && DistinctVersions(p.terms.runtimeVersions) && i < 11
    ensures Canonical(NoFloats(), IdentityJson(p).members[i].value)
  {
    if i == 3 {
      FilesAreCanonical(p);
    } else if i == 9 {
      VersionsAreCanonical(p.terms.runtimeVersions);
    }
  }

  lemma IdentityIsCanonical(p: Profile)
    requires IntsFit(p) && DistinctVersions(p.terms.runtimeVersions)
    ensures Canonical(NoFloats(), IdentityJson(p))
  {
    var members := IdentityJson(p).members;
    IdentityKeysAreUnique(p);
    forall m | m in members ensures Canonical(NoFloats(), m.value) {
      var i: nat :| i < |members| && members[i] == m;
      IdentityValueIsCanonical(p, i);
    }
  }

  /** Equal canonical bytes come from equal identities. */
  lemma CanonicalBytesInjective(p: Profile, q: Profile)
    requires CanonicalBytes(p).Some? && CanonicalBytes(p) == CanonicalBytes(q)
    requires p.terms.runtimeVersions == q.terms.runtimeVersions && DistinctVersions(p.terms.runtimeVersions)
    ensures SameIdentity(p, q)
  {
    var x, y := IdentityJson(p), IdentityJson(q);
    EncodeInjective(Write(x).value, Write(y).value);
    WrittenIdentity(p);
    WrittenIdentity(q);
    IdentityIsCanonical(p);
    IdentityIsCanonical(q);
    LoadsOfWrite(NoFloats(), x);
    LoadsOfWrite(NoFloats(), y);
    IdentityInjective(p, q);
  }

  /**
   Two verified profiles with the same digest agree on every identity field, unless SHA-256 collides on
   their canonical bytes; so a profile whose identity was changed under its old digest is rejected.
   */
  lemma DigestBindsIdentity(world: World, p: Profile, q: Profile, disk: Disk, other: Disk)
    requires VerifyProfile(world, p, disk) && q.profileDigest == p.profileDigest && !SameIdentity(p, q)
    requires DistinctVersions(world.pins.versions)
    requires CanonicalBytes(q).Some? ==> NoCollision(world.sha256, CanonicalBytes(p).value, CanonicalBytes(q).value)
    ensures !VerifyProfile(world, q, other)
  {
    if VerifyProfile(world, q, other) {
      CanonicalBytesInjective(p, q);
      assert false;
    }
  }
}
