/** A smallest bundle that is accepted. */
module BundleWitness {
  import opened Prelude
  import opened Paths
  import opened BundledBackend

  const ENTRY := "bin/pickermux.mjs"

  /** A digest; every content has it here. */
  function Zeros(): string {
    seq(64, _ => '0')
  }

  function RecordOf(path: string): Record {
    Record(Some(path), Some(1), Some(Zeros()))
  }

  /** The four required files. */
  function Required(): seq<Record> {
    [RecordOf("package.json"), RecordOf(ENTRY), RecordOf("LICENSE"), RecordOf("lmstudio-picker.config.json")]
  }

  function OneByte(): Node {
    File([0], true)
  }

  /** They and the manifest, one byte each. */
  function Smallest(): Bundle {
    Bundle(
      map["/" := Directory(true), "/bin" := Directory(true), "/bin/pickermux.mjs" := OneByte(),
          "/package.json" := OneByte(), "/LICENSE" := OneByte(), "/lmstudio-picker.config.json" := OneByte(),
          "/release-manifest.json" := OneByte()],
      contents => Zeros(), contents => Some(Manifest(1, "pickermux", true, Required())))
  }

  // ---------------------------------------------------------------------------------------------
  // Paths.
  // ---------------------------------------------------------------------------------------------

  lemma AbsolutePaths()
    ensures Absolute("package.json") == "/package.json" && Absolute("LICENSE") == "/LICENSE"
    ensures Absolute("lmstudio-picker.config.json") == "/lmstudio-picker.config.json"
    ensures Absolute(ENTRY) == "/bin/pickermux.mjs" && Absolute(MANIFEST) == "/release-manifest.json"
  {
  }

  lemma {:induction false} NameIsUncut(name: string)
    requires IsName(name) || name == ""
    ensures CutName(name) == ""
  {
    if name != "" {
      NameIsUncut(name[..|name| - 1]);
    }
  }

  lemma NameIsPart(name: string)
    requires IsName(name)
    ensures Split(name) == [name]
  {
    NameIsUncut(name);
  }

  lemma NamesOfFiles()
    ensures IsName("package.json") && IsName("LICENSE") && IsName("lmstudio-picker.config.json")
    ensures IsName("bin") && IsName("pickermux.mjs")
  {
  }

  lemma EntryParts()
    ensures Split(ENTRY) == ["bin", "pickermux.mjs"]
  {
    NamesOfFiles();
    NameIsPart("bin");
    CutNameOf("bin/", "pickermux.mjs");
    assert ENTRY == "bin/" + "pickermux.mjs" && "bin/"[..3] == "bin";
  }

  // ---------------------------------------------------------------------------------------------
  // The records.
  // ---------------------------------------------------------------------------------------------

  lemma Trusted(path: string)
    requires path == "/" || path == "/bin"
    ensures DirectoryRule(Smallest())(path)
  {
  }

  lemma TopFileIsReached(name: string)
    requires IsName(name) && name != "." && name != ".."
    ensures HasPlainParts(name) && AllAbove(DirectoryRule(Smallest()), Absolute(name))
  {
    NameIsPart(name);
    SplitJoins(name);
    Trusted("/");
    AboveIsPrefixes(DirectoryRule(Smallest()), [name]);
  }

  lemma EntryIsReached()
    ensures HasPlainParts(ENTRY) && AllAbove(DirectoryRule(Smallest()), Absolute(ENTRY))
  {
    EntryParts();
    NamesOfFiles();
    SplitJoins(ENTRY);
    SplitJoins("bin");
    NameIsPart("bin");
    Trusted("/");
    Trusted("/bin");
    AboveIsPrefixes(DirectoryRule(Smallest()), Split(ENTRY));
    assert Split(ENTRY)[..0] == [] && Split(ENTRY)[..1] == ["bin"] && "/" + "bin" == "/bin";
  }

  lemma DigestOfZeros()
    ensures IsDigest(Zeros())
  {
    assert Zeros()[63] == '0';
  }

  lemma TopFileMatches(name: string)
    requires name == "package.json" || name == "LICENSE" || name == "lmstudio-picker.config.json"
    ensures ValidRecord(RecordOf(name)) && AllAbove(DirectoryRule(Smallest()), Absolute(name))
  {
    NamesOfFiles();
    TopPathMatches(name);
    assert name[|name| - 1] == 'n' || name[|name| - 1] == 'E';
    TopFileIsReached(name);
    DigestOfZeros();
  }

  lemma EntryMatches()
    ensures ValidRecord(RecordOf(ENTRY)) && AllAbove(DirectoryRule(Smallest()), Absolute(ENTRY))
  {
    assert ENTRY[|ENTRY| - 1] == 's' && ENTRY[..4] == "bin/";
    EntryIsReached();
    DigestOfZeros();
  }

  /** A valid record whose file is there matches. */
  lemma RecordMatches(path: string)
    requires ValidRecord(RecordOf(path)) && AllAbove(DirectoryRule(Smallest()), Absolute(path))
    requires Absolute(path) in Smallest().nodes && Smallest().nodes[Absolute(path)] == OneByte()
    ensures Matches(Smallest(), RecordOf(path))
  {
  }

  lemma FilesAreThere()
    ensures var nodes := Smallest().nodes;
            && "/package.json" in nodes && nodes["/package.json"] == OneByte()
            && "/LICENSE" in nodes && nodes["/LICENSE"] == OneByte()
            && "/lmstudio-picker.config.json" in nodes && nodes["/lmstudio-picker.config.json"] == OneByte()
            && "/bin/pickermux.mjs" in nodes && nodes["/bin/pickermux.mjs"] == OneByte()
            && "/release-manifest.json" in nodes && nodes["/release-manifest.json"] == OneByte()
  {
  }

  lemma RecordsAllMatch()
    ensures AllMatch(Smallest(), Required())
  {
    AbsolutePaths();
    FilesAreThere();
    TopFileMatches("package.json");
    TopFileMatches("LICENSE");
    TopFileMatches("lmstudio-picker.config.json");
    EntryMatches();
    RecordMatches("package.json");
    RecordMatches("LICENSE");
    RecordMatches("lmstudio-picker.config.json");
    RecordMatches(ENTRY);
  }

  lemma ListedRecords()
    ensures DistinctPaths(Required()) && TotalSize(Required()) == 4 && Listed(Required()) == REQUIRED
  {
    var records := Required();
    assert |"package.json"| == 12 && |ENTRY| == 17 && |"LICENSE"| == 7 && |"lmstudio-picker.config.json"| == 27;
    SizeNext([], records[0]);
    SizeNext([] + [records[0]], records[1]);
    SizeNext([] + [records[0]] + [records[1]], records[2]);
    SizeNext([] + [records[0]] + [records[1]] + [records[2]], records[3]);
    assert records == [] + [records[0]] + [records[1]] + [records[2]] + [records[3]];
    assert Listed(records)
        == {PathIn(records[0]), PathIn(records[1]), PathIn(records[2]), PathIn(records[3])};
  }

  lemma SizeNext(records: seq<Record>, r: Record)
    ensures TotalSize(records + [r]) == TotalSize(records) + SizeOf(r)
  {
    assert (records + [r])[..|records|] == records;
  }

  lemma OtherInitial(path: string)
    requires path != "" && path[0] != 'r'
    ensures !IsRuntimePath(path)
  {
    if |path| >= 8 {
      assert path[..8][0] == path[0] && "runtime/"[0] == 'r';
    }
  }

  lemma NoRuntime()
    ensures RuntimePaths(REQUIRED) == {}
  {
    OtherInitial("package.json");
    OtherInitial("LICENSE");
    OtherInitial("lmstudio-picker.config.json");
    OtherInitial(ENTRY);
  }

  lemma NodesAreAccepted()
    ensures NothingElse(Smallest(), REQUIRED)
  {
  }

  lemma ManifestIsPinned()
    ensures ManifestAccepted(Smallest(), Zeros()) && Records(Smallest()) == Required()
  {
    AbsolutePaths();
    FilesAreThere();
  }

  lemma RecordsAreAccepted()
    ensures RecordsAccepted(Smallest(), Required())
  {
    RecordsAllMatch();
    ListedRecords();
    NoRuntime();
  }

  lemma AcceptedParts(b: Bundle, expected: string, records: seq<Record>)
    requires IsDirectory(b, "/") && ManifestAccepted(b, expected) && Records(b) == records
    requires RecordsAccepted(b, records) && NothingElse(b, Listed(records))
    ensures BundleAccepted(b, expected)
  {
  }

  lemma NothingElseIsThere()
    ensures NothingElse(Smallest(), Listed(Required())) && IsDirectory(Smallest(), "/")
  {
    ListedRecords();
    NodesAreAccepted();
  }

  /** The bundle is accepted under the digest of its manifest. */
  lemma SmallestIsAccepted()
    ensures BundleAccepted(Smallest(), Zeros())
  {
    ManifestIsPinned();
    RecordsAreAccepted();
    NothingElseIsThere();
    AcceptedParts(Smallest(), Zeros(), Required());
  }
}
