/** A plan that its own validation rejects: the size of the custom architecture file is taken over unchecked. */
module ModelWitness {
  import opened Prelude
  import opened Text
  import opened Json
  import opened Kolibri
  import opened Weights
  import opened ModelStore
  import opened ModelProfiles

  // ---------------------------------------------------------------------------------------------
  // A pinned repository of three files and its architecture.
  // ---------------------------------------------------------------------------------------------

  function ZeroDigits(n: nat): string {
    seq(n, _ => '0')
  }

  function PinnedDigests(): map<string, string> {
    map[CONFIG := ZeroDigits(64), SINGLE := ZeroDigits(64), TOKENIZER_CONFIG := ZeroDigits(64),
        ARCHITECTURE_FILE := ZeroDigits(64)]
  }

  function AsciiDigit(c: char): Option<nat> {
    if IsDigit(c) then Some(DigitValue(c)) else None
  }

  /** The model declares its type and exactly the context window that is asked for. */
  function ConfigOf(spec: Spec): Json {
    Obj([Named("model_type", TextJson(ARCHITECTURE)), Named("max_position_embeddings", Int(spec.contextWindow))])
  }

  /** Configurations have one byte, which is 1 for the model and 2 for its tokenizer. */
  function WorldOf(spec: Spec): World {
    World(contents => ZeroDigits(64), contents => ZeroDigits(40),
          contents => Some(if contents == [1] then ConfigOf(spec) else Obj([])),
          AsciiDigit, config => false, Pins(spec.repository, ZeroDigits(40), PinnedDigests(), []))
  }

  function Upload(name: string, size: int): Sibling {
    Sibling(name, Some(size), Some(Some(ZeroDigits(64))), None)
  }

  /** `size` is what the repository says of its architecture file. */
  function Uploads(size: int): seq<Sibling> {
    [Upload(ARCHITECTURE_FILE, size)] + [Upload(CONFIG, 1)] + [Upload(SINGLE, 1)] + [Upload(TOKENIZER_CONFIG, 1)]
  }

  function RepositoryOf(spec: Spec, size: int): Repository {
    Repository(spec.repository, Some(ZeroDigits(40)), Uploads(size))
  }

  const EMPTY_DISK := Disk(true, map[], true)
  const FETCHED := Disk(true, map[CONFIG := Plain([1], true), TOKENIZER_CONFIG := Plain([2], true)], true)

  // ---------------------------------------------------------------------------------------------
  // Its file list.
  // ---------------------------------------------------------------------------------------------

  function FileOf(name: string, size: int): FileEntry {
    FileEntry(name, size, Sha256, ZeroDigits(64))
  }

  function Collected(): seq<FileEntry> {
    [FileOf(CONFIG, 1)] + [FileOf(SINGLE, 1)] + [FileOf(TOKENIZER_CONFIG, 1)]
  }

  function SortedFiles(size: int): seq<FileEntry> {
    [FileOf(CONFIG, 1), FileOf(ARCHITECTURE_FILE, size), FileOf(SINGLE, 1), FileOf(TOKENIZER_CONFIG, 1)]
  }

  lemma NextEntry(world: World, siblings: seq<Sibling>, name: string)
    requires Entries(world, siblings).Some? && |Entries(world, siblings).value| < MAX_FILES
    requires IsDataFile(name) || name == SINGLE
    ensures Entries(world, siblings + [Upload(name, 1)]) == Some(Entries(world, siblings).value + [FileOf(name, 1)])
  {
    assert (siblings + [Upload(name, 1)])[..|siblings|] == siblings;
  }

  lemma ArchitectureIsSkipped(spec: Spec, size: int)
    ensures Entries(WorldOf(spec), [Upload(ARCHITECTURE_FILE, size)]) == Some([])
  {
    assert ARCHITECTURE_FILE[0] == 'k' && SINGLE[0] == 'm';
    assert [Upload(ARCHITECTURE_FILE, size)][..0] == [];
  }

  lemma CollectedFiles(spec: Spec, size: int)
    ensures Entries(WorldOf(spec), Uploads(size)) == Some(Collected())
  {
    var world, siblings := WorldOf(spec), [Upload(ARCHITECTURE_FILE, size)];
    ArchitectureIsSkipped(spec, size);
    NextEntry(world, siblings, CONFIG);
    assert [] + [FileOf(CONFIG, 1)] == [FileOf(CONFIG, 1)];
    NextEntry(world, siblings + [Upload(CONFIG, 1)], SINGLE);
    NextEntry(world, siblings + [Upload(CONFIG, 1)] + [Upload(SINGLE, 1)], TOKENIZER_CONFIG);
  }

  lemma PinnedFiles(spec: Spec, size: int)
    ensures WithArchitecture(WorldOf(spec), Uploads(size), Collected())
         == Some(Collected() + [FileOf(ARCHITECTURE_FILE, size)])
  {
    var all := Collected() + [FileEntry(ARCHITECTURE_FILE, size, Sha256, "")];
    assert Uploads(size)[0] == Upload(ARCHITECTURE_FILE, size);
    assert forall e :: e in all ==> e.name in PinnedDigests();
    assert Pinned(WorldOf(spec), all) == Collected() + [FileOf(ARCHITECTURE_FILE, size)];
  }

  /** A name that starts below the first of a sorted list, or between its first two. */
  lemma InsertedByInitial(x: FileEntry, y: FileEntry, rest: seq<FileEntry>)
    requires x.name != "" && y.name != "" && x.name[0] != y.name[0]
    ensures x.name[0] < y.name[0] ==> Insert(x, [y] + rest) == [x, y] + rest
    ensures x.name[0] > y.name[0] ==> Insert(x, [y] + rest) == [y] + Insert(x, rest)
  {
    assert ([y] + rest)[1..] == rest;
  }

  lemma SortedNext(x: FileEntry, rest: seq<FileEntry>)
    ensures SortedByName([x] + rest) == Insert(x, SortedByName(rest))
  {
    assert ([x] + rest)[1..] == rest;
  }

  lemma SortedList(size: int)
    ensures SortedByName(Collected() + [FileOf(ARCHITECTURE_FILE, size)]) == SortedFiles(size)
  {
    var a, c := FileOf(ARCHITECTURE_FILE, size), FileOf(CONFIG, 1);
    var m, t := FileOf(SINGLE, 1), FileOf(TOKENIZER_CONFIG, 1);
    assert c.name[0] == 'c' && a.name[0] == 'k' && m.name[0] == 'm' && t.name[0] == 't';
    SortedNext(a, []);
    SortedNext(t, [a]);
    SortedNext(m, [t, a]);
    SortedNext(c, [m, t, a]);
    InsertedByInitial(t, a, []);
    InsertedByInitial(m, a, [t]);
    InsertedByInitial(m, t, []);
    InsertedByInitial(c, a, [m, t]);
    assert [a] + [] == [a] && Collected() + [a] == [c] + [m, t, a];
    assert Insert(t, []) == [t];
    assert SortedByName([t, a]) == [a, t] by {
      assert [t] + [a] == [t, a];
    }
    assert SortedByName([m, t, a]) == [a, m, t] by {
      assert [m] + [t, a] == [m, t, a] && [a] + [t] == [a, t] && [m, t] + [] == [m, t];
    }
  }

  lemma TotalNext(files: seq<FileEntry>, e: FileEntry)
    ensures TotalBytes(files + [e]) == TotalBytes(files) + e.bytes
  {
    assert (files + [e])[..|files|] == files;
  }

  lemma TotalOfFour(a: FileEntry, b: FileEntry, c: FileEntry, d: FileEntry)
    ensures TotalBytes([a, b, c, d]) == a.bytes + b.bytes + c.bytes + d.bytes
  {
    TotalNext([], a);
    TotalNext([] + [a], b);
    TotalNext([] + [a] + [b], c);
    TotalNext([] + [a] + [b] + [c], d);
    assert [] + [a] + [b] + [c] + [d] == [a, b, c, d];
  }

  lemma SortedNames(spec: Spec, size: int)
    ensures DistinctFiles(SortedFiles(size)) && NameSetOf(SortedFiles(size)) == PinnedDigests().Keys
  {
    var files := SortedFiles(size);
    assert files[0].name[0] == 'c' && files[1].name[0] == 'k' && files[2].name[0] == 'm' && files[3].name[0] == 't';
    assert NameSetOf(files) == {files[0].name, files[1].name, files[2].name, files[3].name};
  }

  lemma SortedIsValidSet(spec: Spec, size: int)
    requires size <= MAX_SNAPSHOT_BYTES - 3
    ensures ValidSet(WorldOf(spec), true, SortedFiles(size))
  {
    var files := SortedFiles(size);
    SortedNames(spec, size);
    TotalOfFour(files[0], files[1], files[2], files[3]);
    assert SINGLE in WeightsIn(AsciiDigit, NameSetOf(files));
  }

  lemma SortedIsPlanned(spec: Spec, size: int)
    requires size <= MAX_SNAPSHOT_BYTES - 3
    ensures PlannedFiles(WorldOf(spec), Uploads(size), true) == Some(SortedFiles(size))
  {
    CollectedFiles(spec, size);
    PinnedFiles(spec, size);
    SortedList(size);
    SortedIsValidSet(spec, size);
  }

  // ---------------------------------------------------------------------------------------------
  // Its configuration.
  // ---------------------------------------------------------------------------------------------

  /** Two keys differ when their lengths or their characters at some place do. */
  lemma KeysDiffer(s: string, t: string, i: nat)
    requires |s| != |t| || (i < |s| && s[i] != t[i])
    ensures PointsOf(s) != PointsOf(t)
  {
    if |s| == |t| {
      assert PointsOf(s)[i] != PointsOf(t)[i];
    }
  }

  lemma FieldNext(member: Member, rest: seq<Member>, key: Points)
    ensures Field([member] + rest, key) == if member.key == key then Some(member.value) else Field(rest, key)
  {
    assert ([member] + rest)[1..] == rest;
  }

  lemma FieldOfTwo(spec: Spec, key: string)
    ensures Get(ConfigOf(spec), key)
         == if PointsOf("model_type") == PointsOf(key) then TextJson(ARCHITECTURE)
            else if PointsOf("max_position_embeddings") == PointsOf(key) then Int(spec.contextWindow)
            else Null
  {
    var first, second := ConfigOf(spec).members[0], ConfigOf(spec).members[1];
    assert ConfigOf(spec).members == [first] + ([second] + []);
    FieldNext(first, [second] + [], PointsOf(key));
    FieldNext(second, [], PointsOf(key));
  }

  lemma OtherField(spec: Spec, key: string, i: nat)
    requires |key| != 23 && (|key| != 10 || (i < 10 && key[i] != "model_type"[i]))
    ensures Get(ConfigOf(spec), key).Null?
  {
    KeysDiffer("model_type", key, i);
    KeysDiffer("max_position_embeddings", key, 0);
    FieldOfTwo(spec, key);
  }

  /** Of the keys that are looked up, the configuration has two. */
  lemma ConfigFields(spec: Spec)
    ensures var config := ConfigOf(spec);
            && Get(config, "model_type") == TextJson(ARCHITECTURE) && NoRemoteCode(config)
            && Get(config, "max_position_embeddings") == Int(spec.contextWindow)
  {
    KeysDiffer("model_type", "max_position_embeddings", 0);
    FieldOfTwo(spec, "model_type");
    FieldOfTwo(spec, "max_position_embeddings");
    OtherField(spec, "model_file", 6);
    OtherField(spec, "auto_map", 0);
  }

  lemma OnlyBound(spec: Spec)
    requires ValidSpec(spec)
    ensures Bounds(ConfigOf(spec), Obj([])) == {spec.contextWindow}
  {
    ConfigFields(spec);
    OtherField(spec, "n_positions", 0);
    OtherField(spec, "seq_length", 0);
    OtherField(spec, "max_sequence_length", 0);
  }

  lemma {:induction false} TextIsKept(s: string)
    requires forall i :: 0 <= i < |s| ==> s[i] as int < 0x80
    ensures TextOf(PointsOf(s)) == s
  {
    if s != [] {
      assert PointsOf(s)[1..] == PointsOf(s[1..]);
      TextIsKept(s[1..]);
      HeadTail(s);
    }
  }

  lemma ConfigIsSupported(spec: Spec)
    requires ValidSpec(spec)
    ensures SupportedArchitecture(WorldOf(spec), ConfigOf(spec), Obj([]), true) == Some(ARCHITECTURE)
    ensures ContextAllowed(ConfigOf(spec), Obj([]), spec.contextWindow)
  {
    ConfigFields(spec);
    TextIsKept(ARCHITECTURE);
    OnlyBound(spec);
  }

  // ---------------------------------------------------------------------------------------------
  // Its plan.
  // ---------------------------------------------------------------------------------------------

  lemma ConfigurationIsExpected(spec: Spec, size: int)
    ensures IsExpectedName(WorldOf(spec), FETCHED, SortedFiles(size), CONFIG)
    ensures IsExpectedName(WorldOf(spec), FETCHED, SortedFiles(size), TOKENIZER_CONFIG)
  {
    assert CONFIG[0] == 'c' && ARCHITECTURE_FILE[0] == 'k' && SINGLE[0] == 'm' && TOKENIZER_CONFIG[0] == 't';
  }

  lemma PlannedWhen(world: World, spec: Spec, repository: Repository, fetched: Disk, files: seq<FileEntry>)
    requires ValidSpec(spec) && repository.id == spec.repository && IsHex(world.pins.revision, 40)
    requires repository.sha == Some(world.pins.revision) && spec.repository == world.pins.repository
    requires PlannedFiles(world, repository.siblings, true) == Some(files)
    requires IsExpectedName(world, fetched, files, CONFIG) && IsExpectedName(world, fetched, files, TOKENIZER_CONFIG)
    requires ModelTypeOf(world, fetched, true, spec.contextWindow).Some?
    ensures var plan := PlanModel(world, spec, repository, EMPTY_DISK, fetched);
            plan.Some? && plan.value.files == files
  {
  }

  lemma FetchedModelType(spec: Spec)
    requires ValidSpec(spec)
    ensures ModelTypeOf(WorldOf(spec), FETCHED, true, spec.contextWindow) == Some(ARCHITECTURE)
  {
    ConfigIsSupported(spec);
  }

  lemma WitnessIsPlanned(spec: Spec, size: int)
    requires ValidSpec(spec) && size <= MAX_SNAPSHOT_BYTES - 3
    ensures var plan := PlanModel(WorldOf(spec), spec, RepositoryOf(spec, size), EMPTY_DISK, FETCHED);
            plan.Some? && plan.value.files == SortedFiles(size)
  {
    SortedIsPlanned(spec, size);
    ConfigurationIsExpected(spec, size);
    FetchedModelType(spec);
    PlannedWhen(WorldOf(spec), spec, RepositoryOf(spec, size), FETCHED, SortedFiles(size));
  }

  lemma SizesOfSorted(size: int)
    ensures (forall i :: 0 <= i < |SortedFiles(size)| ==> SortedFiles(size)[i].bytes >= 0) <==> size >= 0
  {
    assert SortedFiles(size)[1].bytes == size;
  }

  lemma WitnessPinsAreSane(spec: Spec)
    ensures SanePins(WorldOf(spec).pins)
  {
    assert |PinnedDigests()| <= 4;
  }

  /**
   For every valid specification there is a repository, with the given size of its architecture file, that
   is planned; and the plan is rejected by its own validation exactly when that size is negative.
   */
  lemma NegativeSizeIsPlanned(spec: Spec, size: int)
    requires ValidSpec(spec) && size <= MAX_SNAPSHOT_BYTES - 3
    ensures var plan := PlanModel(WorldOf(spec), spec, RepositoryOf(spec, size), EMPTY_DISK, FETCHED);
            plan.Some? && (ValidPlan(WorldOf(spec), plan.value) <==> size >= 0)
  {
    WitnessIsPlanned(spec, size);
    WitnessPinsAreSane(spec);
    PlanIsValid(WorldOf(spec), spec, RepositoryOf(spec, size), EMPTY_DISK, FETCHED);
    SizesOfSorted(size);
  }
}
