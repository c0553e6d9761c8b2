/**
 What the two configuration files of an accepted model say: the declared context bounds, the architecture,
 and that nothing outside the snapshot is read. Everything is stated on the fields of the decoded files.
 */
module ModelContext {
  import opened Prelude
  import opened Text
  import opened Json
  import opened Kolibri
  import opened Weights
  import opened ModelStore

  /** The field is present and holds this value. */
  predicate Holds(v: Json, key: string, value: Json) {
    v.Obj? && Field(v.members, PointsOf(key)) == Some(value)
  }

  predicate Lacks(v: Json, key: string) {
    v.Obj? && (Field(v.members, PointsOf(key)).None? || Field(v.members, PointsOf(key)) == Some(Null))
  }

  // ---------------------------------------------------------------------------------------------
  // The context window.
  // ---------------------------------------------------------------------------------------------

  /** One of the five fields declares this bound. */
  predicate Declares(config: Json, tokenizer: Json, bound: int) {
    && 1 <= bound <= 1000000000
    && (|| Holds(config, "max_position_embeddings", Int(bound)) || Holds(config, "n_positions", Int(bound))
        || Holds(config, "max_sequence_length", Int(bound)) || Holds(config, "seq_length", Int(bound))
        || Holds(tokenizer, "model_max_length", Int(bound)))
  }

  ghost predicate ContextFits(config: Json, tokenizer: Json, contextWindow: int) {
    && (exists bound :: Declares(config, tokenizer, bound))
    && forall bound :: Declares(config, tokenizer, bound) ==> contextWindow <= bound
  }

  lemma BoundsAreDeclared(config: Json, tokenizer: Json, bound: int)
    ensures bound in Bounds(config, tokenizer) <==> Declares(config, tokenizer, bound)
  {
    if Declares(config, tokenizer, bound) {
      assert IsBound(Int(bound));
    }
  }

  /** The window fits every declared bound, the smallest one too, and there is one. */
  lemma AllowedIffFits(config: Json, tokenizer: Json, contextWindow: int)
    ensures ContextAllowed(config, tokenizer, contextWindow) <==> ContextFits(config, tokenizer, contextWindow)
  {
    forall bound ensures bound in Bounds(config, tokenizer) <==> Declares(config, tokenizer, bound) {
      BoundsAreDeclared(config, tokenizer, bound);
    }
  }

  // ---------------------------------------------------------------------------------------------
  // The architecture.
  // ---------------------------------------------------------------------------------------------

  const DATA_FILES :=
    {"config.json", "generation_config.json", "tokenizer.json", "tokenizer_config.json", "special_tokens_map.json",
     "added_tokens.json", "tokenizer.model", "vocab.json", "merges.txt", "chat_template.jinja",
     "model.safetensors.index.json", "LICENSE"}

  predicate NamesDataFile(v: Json) {
    exists name :: name in DATA_FILES && v == TextJson(name)
  }

  predicate IsWord(s: string) {
    && 1 <= |s| <= 64 && 'a' <= s[0] <= 'z'
    && forall i :: 0 <= i < |s| ==> 'a' <= s[i] <= 'z' || '0' <= s[i] <= '9' || s[i] == '_'
  }

  ghost predicate LacksOrNames(v: Json, key: string) {
    Lacks(v, key) || exists name :: IsWord(name) && Holds(v, key, TextJson(name))
  }

  /** No code, no file from elsewhere, plain parser names. */
  ghost predicate StaysInside(config: Json, tokenizer: Json) {
    && Lacks(config, "model_file") && Lacks(config, "auto_map")
    && Lacks(tokenizer, "model_file") && Lacks(tokenizer, "auto_map")
    && (forall m :: m in tokenizer.members && EndsInFile(m.key) ==> m.value.Null? || NamesDataFile(m.value))
    && (|| Lacks(tokenizer, "fast_tokenizer_files")
        || exists items :: Holds(tokenizer, "fast_tokenizer_files", Arr(items))
                           && forall item :: item in items ==> item == TextJson("tokenizer.json"))
    && LacksOrNames(tokenizer, "chat_template_type") && LacksOrNames(tokenizer, "tool_parser_type")
  }

  ghost predicate ArchitectureFits(world: World, config: Json, tokenizer: Json, custom: bool, modelType: string) {
    && StaysInside(config, tokenizer) && IsWord(modelType) && Holds(config, "model_type", TextJson(modelType))
    && (if custom then modelType == "kolibri1" else world.builtIn(config))
  }

  predicate IsPlain(s: string) {
    forall i :: 0 <= i < |s| ==> s[i] as int < 0x80
  }

  /** An ASCII text is the text of one string only. */
  lemma {:induction false} PlainText(points: Points, s: string)
    requires IsPlain(s)
    ensures TextOf(points) == s <==> points == PointsOf(s)
  {
    if points == [] || s == [] {
      assert PointsOf([]) == [];
    } else {
      PlainText(points[1..], s[1..]);
      assert PointsOf(s)[1..] == PointsOf(s[1..]) && PointsOf(s)[0] == s[0] as int;
      HeadTail(points);
      HeadTail(s);
      HeadTail(PointsOf(s));
    }
  }

  lemma DataFileNames(name: string)
    ensures IsDataFile(name) <==> name in DATA_FILES
  {
  }

  lemma JsonFilesArePlain()
    ensures IsPlain("config.json") && IsPlain("generation_config.json") && IsPlain("tokenizer.json")
    ensures IsPlain("tokenizer_config.json") && IsPlain("special_tokens_map.json")
    ensures IsPlain("added_tokens.json") && IsPlain("vocab.json") && IsPlain("model.safetensors.index.json")
  {
  }

  lemma DataFileIsPlain(name: string)
    requires name in DATA_FILES
    ensures IsPlain(name)
  {
    JsonFilesArePlain();
  }

  lemma NamedDataFile(v: Json)
    ensures v.Str? && IsDataFile(TextOf(v.points)) <==> NamesDataFile(v)
  {
    if v.Str? {
      DataFileNames(TextOf(v.points));
      forall name | name in DATA_FILES ensures TextOf(v.points) == name <==> v == TextJson(name) {
        DataFileIsPlain(name);
        PlainText(v.points, name);
      }
    }
  }

  lemma WordIsIdentifier(s: string)
    ensures IsIdentifier(s) <==> IsWord(s)
    ensures IsWord(s) ==> IsPlain(s)
  {
  }

  lemma ParserName(v: Json, key: string)
    requires v.Obj?
    ensures IsParserName(Get(v, key)) <==> LacksOrNames(v, key)
  {
    var found := Get(v, key);
    if found.Str? {
      WordIsIdentifier(TextOf(found.points));
      PlainOrNot(found.points);
    }
    forall name | IsWord(name) && Holds(v, key, TextJson(name)) ensures IsParserName(found) {
      WordIsIdentifier(name);
      PlainText(PointsOf(name), name);
    }
  }

  /** An identifier that is read from a string is the string. */
  lemma PlainOrNot(points: Points)
    ensures IsPlain(TextOf(points)) ==> points == PointsOf(TextOf(points))
  {
    if IsPlain(TextOf(points)) {
      PlainText(points, TextOf(points));
    }
  }

  lemma FastFiles(tokenizer: Json)
    requires tokenizer.Obj?
    ensures FastFilesInside(tokenizer) <==>
              || Lacks(tokenizer, "fast_tokenizer_files")
              || exists items :: Holds(tokenizer, "fast_tokenizer_files", Arr(items))
                                 && forall item :: item in items ==> item == TextJson("tokenizer.json")
  {
  }

  lemma Overrides(tokenizer: Json)
    requires tokenizer.Obj?
    ensures OverridesInside(tokenizer) <==>
              forall m :: m in tokenizer.members && EndsInFile(m.key) ==> m.value.Null? || NamesDataFile(m.value)
  {
    forall m | m in tokenizer.members
      ensures m.value.Str? && IsDataFile(TextOf(m.value.points)) <==> NamesDataFile(m.value)
    {
      NamedDataFile(m.value);
    }
  }

  lemma NoCode(v: Json)
    ensures NoRemoteCode(v) <==> Lacks(v, "model_file") && Lacks(v, "auto_map")
  {
  }

  /** The model type is supported exactly when the fields are like that. */
  lemma SupportedIffFits(world: World, config: Json, tokenizer: Json, custom: bool, modelType: string)
    ensures SupportedArchitecture(world, config, tokenizer, custom) == Some(modelType)
            <==> ArchitectureFits(world, config, tokenizer, custom, modelType)
  {
    NoCode(config);
    NoCode(tokenizer);
    if config.Obj? && tokenizer.Obj? {
      FastFiles(tokenizer);
      Overrides(tokenizer);
      ParserName(tokenizer, "chat_template_type");
      ParserName(tokenizer, "tool_parser_type");
      ModelType(config, modelType);
    }
  }

  lemma ModelType(config: Json, modelType: string)
    ensures var found := Get(config, "model_type");
            (found.Str? && TextOf(found.points) == modelType && IsIdentifier(modelType))
            <==> IsWord(modelType) && Holds(config, "model_type", TextJson(modelType))
  {
    WordIsIdentifier(modelType);
    if IsWord(modelType) {
      PlainText(PointsOf(modelType), modelType);
      if Get(config, "model_type").Str? {
        PlainText(Get(config, "model_type").points, modelType);
      }
    }
  }

  // ---------------------------------------------------------------------------------------------
  // Accepted profiles and plans.
  // ---------------------------------------------------------------------------------------------

  /** The two configuration files of a disk can be read and say all that. */
  ghost predicate ConfigurationFits(
      world: World, disk: Disk, custom: bool, contextWindow: int, modelType: string, config: Json, tokenizer: Json)
  {
    && ReadJson(world, disk, "config.json") == Some(config)
    && ReadJson(world, disk, "tokenizer_config.json") == Some(tokenizer)
    && ArchitectureFits(world, config, tokenizer, custom, modelType)
    && ContextFits(config, tokenizer, contextWindow)
  }

  lemma ModelTypeIffFits(world: World, disk: Disk, custom: bool, contextWindow: int, modelType: string)
    ensures ModelTypeOf(world, disk, custom, contextWindow) == Some(modelType)
            <==> exists config, tokenizer ::
                   ConfigurationFits(world, disk, custom, contextWindow, modelType, config, tokenizer)
  {
    match (ReadJson(world, disk, CONFIG), ReadJson(world, disk, TOKENIZER_CONFIG))
    case (Some(config), Some(tokenizer)) =>
      SupportedIffFits(world, config, tokenizer, custom, modelType);
      AllowedIffFits(config, tokenizer, contextWindow);
      assert ConfigurationFits(world, disk, custom, contextWindow, modelType, config, tokenizer)
        <==> ModelTypeOf(world, disk, custom, contextWindow) == Some(modelType);
    case _ =>
  }

  /** Everything that a verified profile needs apart from what its configuration says. */
  predicate SoundFiles(world: World, p: Profile, disk: Disk) {
    && p.kind == "pickermux-mlx-profile" && Digest(world, p) == Some(p.profileDigest) && ValidTerms(world, p.terms)
    && ValidFiles(world, IsCustom(world, p.terms.repository, p.terms.revision), AsEntries(p.files))
    && IsAbsolute(p.snapshotDirectory) && SafeInventory(disk, NamesOf(AsEntries(p.files)), false)
    && ValidWeights(world, disk, NameSetOf(AsEntries(p.files))) && AllExpected(world, disk, AsEntries(p.files))
  }

  /** A profile with sound files is verified exactly when the configuration on the disk fits its terms. */
  lemma VerifiedIffFits(world: World, p: Profile, disk: Disk)
    ensures VerifyProfile(world, p, disk)
            <==> && SoundFiles(world, p, disk)
                 && exists config, tokenizer ::
                      ConfigurationFits(world, disk, IsCustom(world, p.terms.repository, p.terms.revision),
                                        p.terms.contextWindow, p.terms.modelType, config, tokenizer)
  {
    ModelTypeIffFits(world, disk, IsCustom(world, p.terms.repository, p.terms.revision),
                     p.terms.contextWindow, p.terms.modelType);
  }

  /** The repository resolved, and the planned files agree with whatever is on the two disks. */
  predicate SoundPlan(
      world: World, spec: Spec, repository: Repository, disk: Disk, fetched: Disk, files: seq<FileEntry>)
  {
    && ValidSpec(spec) && repository.sha.Some? && IsHex(repository.sha.value, 40) && repository.id == spec.repository
    && PlannedFiles(world, repository.siblings, IsCustom(world, spec.repository, repository.sha.value)) == Some(files)
    && SafeInventory(disk, NamesOf(files), true) && PresentFilesExpected(world, disk, files)
    && IsExpectedName(world, fetched, files, "config.json")
    && IsExpectedName(world, fetched, files, "tokenizer_config.json")
  }

  function PlannedTerms(world: World, spec: Spec, revision: string, modelType: string): Terms {
    Terms(1, spec.repository, revision, spec.alias, spec.contextWindow, spec.maxOutputTokens, modelType,
          if IsCustom(world, spec.repository, revision) then Some("kolibri1") else None, world.pins.versions)
  }

  /** A plan is made exactly when the fetched configuration fits the specification, with these terms. */
  lemma PlannedIffFits(world: World, spec: Spec, repository: Repository, disk: Disk, fetched: Disk, plan: Plan)
    ensures PlanModel(world, spec, repository, disk, fetched) == Some(plan)
            <==> && SoundPlan(world, spec, repository, disk, fetched, plan.files)
                 && plan.terms == PlannedTerms(world, spec, repository.sha.value, plan.terms.modelType)
                 && exists config, tokenizer ::
                      ConfigurationFits(world, fetched, IsCustom(world, spec.repository, repository.sha.value),
                                        spec.contextWindow, plan.terms.modelType, config, tokenizer)
  {
    if repository.sha.Some? {
      ModelTypeIffFits(world, fetched, IsCustom(world, spec.repository, repository.sha.value),
                       spec.contextWindow, plan.terms.modelType);
    }
  }

  // ---------------------------------------------------------------------------------------------
  // The smallest bound decides.
  // ---------------------------------------------------------------------------------------------

  /** A model and a tokenizer that declare different bounds. */
  lemma SmallestBoundDecides(positions: int, length: int, contextWindow: int)
    requires 1 <= positions <= 1000000000 && 1 <= length <= 1000000000
    ensures var config := Obj([Named("max_position_embeddings", Int(positions))]);
            var tokenizer := Obj([Named("model_max_length", Int(length))]);
            ContextAllowed(config, tokenizer, contextWindow) <==> contextWindow <= positions && contextWindow <= length
  {
    var config := Obj([Named("max_position_embeddings", Int(positions))]);
    var tokenizer := Obj([Named("model_max_length", Int(length))]);
    AllowedIffFits(config, tokenizer, contextWindow);
    OneField("max_position_embeddings", Int(positions), "n_positions");
    OneField("max_position_embeddings", Int(positions), "max_sequence_length");
    OneField("max_position_embeddings", Int(positions), "seq_length");
    assert Declares(config, tokenizer, positions) && Declares(config, tokenizer, length);
  }

  lemma OneField(key: string, v: Json, other: string)
    requires |key| != |other|
    ensures Field([Named(key, v)], PointsOf(other)).None?
  {
    assert |PointsOf(key)| != |PointsOf(other)|;
    assert [Named(key, v)][1..] == [];
  }
}
