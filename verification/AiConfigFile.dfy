/** The configuration file as a whole: loading it, saving it in the form its models call for, and what a
    load and a save leave unchanged. */
module AiConfigFile {
  import opened Options
  import opened Texts
  import opened AiConfig
  import opened AiConfigSave
  import opened AiConfigRoundTrip
  import opened AiPreserve
  import opened FreshNames
  import opened AiMigration
  import opened AiMigrationRoundTrip
  import opened AiLegacySave
  import opened AiFallbacks

  /** A file of the new schema: the structure and the two v1 providers kept beside it. */
  datatype StoredFile = StoredFile(structure: Structure, text: V1Provider, image: V1Provider)

  function BoundProvider(b: Bound): V1Provider { V1Provider(b.baseUrl, b.apiKey, b.model, b.timeout) }

  function HeadProvider(s: Structure, key: string, given: V1Provider): V1Provider {
    if Resolve(s, key) == [] then given else BoundProvider(Resolve(s, key)[0])
  }

  function DerivedView(s: Structure, text: V1Provider, image: V1Provider): V1Config {
    V1Config(View(s), DerivedHeads(s), HeadProvider(s, TEXT_STAGE, text), HeadProvider(s, IMAGE_STAGE, image))
  }

  function Load(infer: string -> bool, file: StoredFile): Config {
    var s := LoadStructure(infer, file.structure).structure;
    Config(s, DerivedView(s, file.text, file.image))
  }

  function SaveV2(infer: string -> bool, c: Config): Option<Config> {
    match SaveStructure(infer, Headed(c.structure, c.v1.heads))
    case None => None
    case Some(r) =>
      Some(Config(r.structure, DerivedView(r.structure, NormalV1Provider(c.v1.text), NormalV1Provider(c.v1.image))))
  }

  /** The new form is saved when there are models; a configuration without any is saved from its v1 fields. */
  function Save(naming: Naming, infer: string -> bool, disk: StoredFile, c: Config): Option<Config> {
    if c.structure.models != [] then SaveV2(infer, c)
    else Some(SaveV1(naming, infer, disk.structure.stages, c.v1))
  }

  /** What a save writes. */
  function Stored(c: Config): StoredFile { StoredFile(c.structure, c.v1.text, c.v1.image) }

  // ---------------------------------------------------------------- the save as a whole

  method SaveLegacy(naming: Naming, infer: string -> bool, disk: Chains, v: V1Config) returns (c: Config)
    ensures c == SaveV1(naming, infer, disk, v)
  {
    var es := NormalizeEntries(v);
    var text := SelectActive(es, NeedsText, v.heads.text, v.text);
    var image := SelectActive(es, NeedsImage, v.heads.image, v.image);
    var context := SelectActive(es, NeedsText, v.heads.context, if text.Some? then ProviderOf(text.value) else v.text);
    var heads := Heads(IdOf(text), IdOf(image), IdOf(context));
    var m := MigrateConfig(naming, es, heads);
    var keys := seq(|STAGES|, i requires 0 <= i < |STAGES| => STAGES[i].key);
    StageKeysAreTheStages(naming, v, keys);
    var stages := PreserveStageChains(m.stages, keys, disk, m.models);
    var s, problems := Normalize(infer, m.(stages := stages));
    c := Config(s, V1Config(es, heads, SelectedProvider(text, v.text), SelectedProvider(image, v.image)));
  }

  lemma StageKeysAreTheStages(naming: Naming, v: V1Config, keys: seq<string>)
    requires |keys| == |STAGES| && forall i | 0 <= i < |keys| :: keys[i] == STAGES[i].key
    ensures DistinctIds(keys) && forall k :: k in Remade(naming, v).stages <==> k in keys
  {
    StageKeysDiffer();
    forall k ensures k in Remade(naming, v).stages <==> k in keys {
      assert keys == [keys[0], keys[1], keys[2], keys[3], keys[4]];
    }
  }

  // ---------------------------------------------------------------- a save with models

  predicate SettledFile(file: StoredFile) {
    && (forall i | 0 <= i < |file.structure.providers| :: Settled(file.structure.providers[i].baseUrl))
    && Settled(file.text.baseUrl) && Settled(file.image.baseUrl)
  }

  /** A save keeps a configuration when every model stays and every stage calls what it called. */
  ghost predicate Keeps(c: Config, saved: Config) {
    saved.structure.models == c.structure.models && forall key ::
      Resolve(saved.structure, key) == Resolve(c.structure, key)
  }

  lemma BaseIsSlug(naming: Naming, url: string)
    ensures ValidSlug(naming.Base(url))
  {
    SlugifyIsValid(naming.host(url), "custom");
  }

  /** The first entry of a list always becomes the first model, on the first provider. */
  lemma {:induction false} FirstMigrated(naming: Naming, es: seq<Entry>)
    requires es != [] && ValidSlug(es[0].id)
    ensures var p := AddEntries(naming, es);
      && p.models != [] && p.providers != [] && p.models[0].id == es[0].id
      && p.models[0].providerId == p.providers[0].id && ValidSlug(p.providers[0].id)
  {
    var init, last := es[..|es| - 1], es[|es| - 1];
    if init == [] {
      SlugsAreStripped(last.id);
      BaseIsSlug(naming, TrimUrl(last.baseUrl));
      assert AddEntries(naming, init) == START;
    } else {
      FirstMigrated(naming, init);
    }
  }

  lemma {:induction false} FirstProviderStays(infer: string -> bool, ps: seq<Provider>)
    requires ps != [] && ValidSlug(ps[0].id)
    ensures ProviderAt(NormalProviders(infer, ps).0, ps[0].id).Some?
  {
    SlugsAreStripped(ps[0].id);
    var init, last := ps[..|ps| - 1], ps[|ps| - 1];
    var done := NormalProviders(infer, init).0;
    if init == [] {
      assert NormalProviders(infer, ps).0[0].id == ps[0].id;
    } else {
      FirstProviderStays(infer, init);
      assert NormalProviders(infer, ps).0[ProviderAt(done, ps[0].id).value].id == ps[0].id;
    }
  }

  lemma AddFirstModel(problems: seq<Problem>, item: Model, ps: seq<Provider>)
    requires ValidSlug(item.id) && ProviderAt(ps, item.providerId).Some?
    ensures AddModel(([], problems), item, ps).0 == [item]
  {
  }

  lemma AddKeepsFirst(done: (seq<Model>, seq<Problem>), item: Model, ps: seq<Provider>)
    requires done.0 != []
    ensures AddModel(done, item, ps).0 != [] && AddModel(done, item, ps).0[0] == done.0[0]
  {
  }

  lemma {:induction false} FirstModelStays(ms: seq<Model>, ps: seq<Provider>)
    requires ms != [] && ValidSlug(ms[0].id) && ProviderAt(ps, Strip(ms[0].providerId)).Some?
    ensures NormalModels(ms, ps).0 != [] && NormalModels(ms, ps).0[0] == NormalModel(ms[0])
  {
    var init, last := ms[..|ms| - 1], ms[|ms| - 1];
    assert ms == init + [last];
    NormalModelsSnoc(init, last, ps);
    if init == [] {
      SlugsAreStripped(last.id);
      AddFirstModel(NormalModels(init, ps).1, NormalModel(last), ps);
    } else {
      FirstModelStays(init, ps);
      AddKeepsFirst(NormalModels(init, ps), NormalModel(last), ps);
    }
  }

  /** A v1 save never leaves a configuration without models. */
  lemma LegacySaveHasModels(naming: Naming, infer: string -> bool, disk: Chains, v: V1Config)
    requires SlugIds(v.entries)
    ensures SaveV1(naming, infer, disk, v).structure.models != []
  {
    var es, m := MergedEntries(v), Remade(naming, v);
    MergedKeyed(v, 0);
    MergedSlugKeys(v);
    FirstMigrated(naming, es);
    FirstProviderStays(infer, m.providers);
    SlugsAreStripped(m.providers[0].id);
    FirstModelStays(m.models, NormalProviders(infer, m.providers).0);
  }

  lemma NoModelsNoView(s: Structure)
    requires s.models == []
    ensures View(s) == [] && forall key :: Resolve(s, key) == []
  {
    forall key ensures Resolve(s, key) == [] { NoModelsNoRoutes(s, StageAt(key), ChainOf(s.stages, key)); }
  }

  lemma {:induction false} NoModelsNoRoutes(s: Structure, stage: Option<Stage>, chain: seq<string>)
    requires s.models == []
    ensures ResolveChain(s, stage, chain) == []
  {
    if chain != [] { NoModelsNoRoutes(s, stage, chain[..|chain| - 1]); }
  }

  lemma ModellessSaveChanges(naming: Naming, infer: string -> bool, file: StoredFile)
    requires Load(infer, file).structure.models == []
    ensures Save(naming, infer, file, Load(infer, file)).Some?
    ensures Save(naming, infer, file, Load(infer, file)).value.structure.models != []
  {
    var c := Load(infer, file);
    NoModelsNoView(c.structure);
    LegacySaveHasModels(naming, infer, file.structure.stages, c.v1);
  }

  /** Saving what was just loaded never raises. It keeps the models, and what every stage calls with its order
      and endpoints, exactly when there are models and the URLs they are called with are trimmed. */
  lemma SaveKeepsEveryRouteIff(naming: Naming, infer: string -> bool, file: StoredFile)
    ensures var c, saved := Load(infer, file), Save(naming, infer, file, Load(infer, file));
      && saved.Some?
      && (Keeps(c, saved.value) <==> c.structure.models != [] && RoutedUrlsTrimmed(c.structure))
      && (c.structure.models != [] ==> saved.value.structure.models == c.structure.models)
      && (Keeps(c, saved.value) ==> saved.value.v1.heads == c.v1.heads)
  {
    var c := Load(infer, file);
    if c.structure.models == [] {
      ModellessSaveChanges(naming, infer, file);
    } else {
      StructureKeepsRoutesIff(infer, file.structure);
    }
  }

  /** One load and save has reached a fixpoint: nothing but the stored order of a chain has changed, and
      loading or saving again changes nothing at all. */
  ghost predicate Settles(naming: Naming, infer: string -> bool, c: Config, saved: Config) {
    && saved.structure.providers == c.structure.providers && saved.structure.models == c.structure.models
    && saved.v1.heads == c.v1.heads
    && Load(infer, Stored(saved)) == saved && Save(naming, infer, Stored(saved), saved) == Some(saved)
  }

  lemma NormalProviderAgain(p: V1Provider)
    requires Settled(p.baseUrl)
    ensures NormalV1Provider(NormalV1Provider(p)) == NormalV1Provider(p)
  {
    TrimUrlIdempotentIff(p.baseUrl);
    StripIdempotent(p.apiKey);
    StripIdempotent(p.model);
  }

  lemma ViewAgain(s: Structure, text: V1Provider, image: V1Provider)
    requires NormalV1Provider(text) == text && NormalV1Provider(image) == image
    ensures var v := DerivedView(s, text, image);
      DerivedView(s, v.text, v.image) == v && DerivedView(s, NormalV1Provider(v.text), NormalV1Provider(v.image)) == v
  {
  }

  lemma HeadIsSettled(s: Structure, key: string, given: V1Provider)
    requires UrlsTrimmed(s.providers) && Settled(given.baseUrl)
    ensures Settled(HeadProvider(s, key, given).baseUrl)
  {
    if Resolve(s, key) != [] {
      ResolvedAt(s, StageAt(key), ChainOf(s.stages, key), 0);
      TrimUrlIdempotentIff(Resolve(s, key)[0].baseUrl);
    }
  }

  lemma SavedAgain(naming: Naming, infer: string -> bool, r: Structure, text: V1Provider, image: V1Provider)
    requires LoadStructure(infer, r) == Headed(r, DerivedHeads(r)) && r.models != []
    requires SaveStructure(infer, Headed(r, DerivedHeads(r))) == Some(Headed(r, DerivedHeads(r)))
    requires NormalV1Provider(text) == text && NormalV1Provider(image) == image
    ensures var saved := Config(r, DerivedView(r, text, image));
      Load(infer, Stored(saved)) == saved && Save(naming, infer, Stored(saved), saved) == Some(saved)
  {
    ViewAgain(r, text, image);
  }

  lemma LoadedProvidersAgain(infer: string -> bool, file: StoredFile)
    requires SettledFile(file)
    ensures var v := Load(infer, file).v1;
      && NormalV1Provider(NormalV1Provider(v.text)) == NormalV1Provider(v.text)
      && NormalV1Provider(NormalV1Provider(v.image)) == NormalV1Provider(v.image)
  {
    var s := Load(infer, file).structure;
    LoadedUrlsTrimmed(infer, file.structure);
    HeadIsSettled(s, TEXT_STAGE, file.text);
    HeadIsSettled(s, IMAGE_STAGE, file.image);
    NormalProviderAgain(Load(infer, file).v1.text);
    NormalProviderAgain(Load(infer, file).v1.image);
  }

  lemma SavedModelsSettle(naming: Naming, infer: string -> bool, file: StoredFile)
    requires SettledFile(file) && Load(infer, file).structure.models != []
    ensures var saved := Save(naming, infer, file, Load(infer, file));
      saved.Some? && Settles(naming, infer, Load(infer, file), saved.value)
  {
    var c := Load(infer, file);
    StructureIsAFixpoint(infer, file.structure);
    StructureKeepsRoutesIff(infer, file.structure);
    LoadedProvidersAgain(infer, file);
    var r := SaveStructure(infer, Headed(c.structure, c.v1.heads)).value;
    assert LoadStructure(infer, r.structure) == r;
    SavedAgain(naming, infer, r.structure, NormalV1Provider(c.v1.text), NormalV1Provider(c.v1.image));
  }

  /** When no URL of the file hides a space behind its closing slashes, one load and save reaches a fixpoint
      exactly when the file has a model that survives its normalisation. */
  lemma SaveIsAFixpointIff(naming: Naming, infer: string -> bool, file: StoredFile)
    requires SettledFile(file)
    ensures var c, saved := Load(infer, file), Save(naming, infer, file, Load(infer, file));
      saved.Some? && (Settles(naming, infer, c, saved.value) <==> c.structure.models != [])
  {
    if Load(infer, file).structure.models == [] {
      ModellessSaveChanges(naming, infer, file);
    } else {
      SavedModelsSettle(naming, infer, file);
    }
  }
}
