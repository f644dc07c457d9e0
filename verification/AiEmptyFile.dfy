/** Saving what was loaded from a file without models: the default models are installed, and four stages that
    called nothing are bound to them. */
module AiEmptyFile {
  import opened Options
  import opened Texts
  import opened AiConfig
  import opened AiConfigSave
  import opened AiMigration
  import opened AiMigrationRoundTrip
  import opened AiLegacySave
  import opened AiFallbacks
  import opened AiConfigFile
  import opened AiLegacyInputs

  // ---------------------------------------------------------------- a file without models

  /** The hosts of the three default endpoints, as they are read off their base URLs. */
  predicate KnownHosts(naming: Naming) {
    && naming.host("https://api.deepseek.com") == "api.deepseek.com"
    && naming.host("https://open.bigmodel.cn/api/paas/v4") == "open.bigmodel.cn"
    && naming.host("https://api.xiaomimimo.com/v1") == "api.xiaomimimo.com"
  }

  /** An entry as normalisation leaves it. */
  predicate Fixed(e: Entry) { NormalEntry(e) == e && ValidSlug(e.id) }

  predicate DistinctEndpoints(naming: Naming, a: Entry, b: Entry) {
    a.id != b.id && EndpointOf(a) != EndpointOf(b) && naming.Base(a.baseUrl) != naming.Base(b.baseUrl)
  }

  function ProviderFor(naming: Naming, e: Entry): Provider {
    NewProvider(naming, naming.Base(e.baseUrl), EndpointOf(e))
  }

  function ModelFor(naming: Naming, e: Entry): Model { NewModel(e.id, naming.Base(e.baseUrl), e) }

  /** The progress over entries that share nothing is one provider and one model for each. */
  predicate Apart(naming: Naming, es: seq<Entry>, p: Progress) {
    && |p.models| == |p.providers| == |es|
    && (forall i | 0 <= i < |es| ::
       p.models[i] == ModelFor(naming, es[i]) && p.providers[i] == ProviderFor(naming, es[i]))
    && (forall k | k in p.byKey :: exists i ::
       0 <= i < |es| && EndpointOf(es[i]) == k && p.byKey[k] == naming.Base(es[i].baseUrl))
  }

  predicate AllApart(naming: Naming, es: seq<Entry>) {
    (forall i | 0 <= i < |es| :: Fixed(es[i])) && forall i, j | 0 <= i < j < |es| ::
      DistinctEndpoints(naming, es[i], es[j])
  }

  lemma ApartOneMore(naming: Naming, init: seq<Entry>, last: Entry, p: Progress)
    requires Apart(naming, init, p) && Fixed(last) && forall i | 0 <= i < |init| ::
      DistinctEndpoints(naming, init[i], last)
    ensures Apart(naming, init + [last], AddEntry(naming, p, last))
  {
    var es, q, base := init + [last], AddEntry(naming, p, last), naming.Base(last.baseUrl);
    SlugsAreStripped(last.id);
    assert EndpointOf(last) !in p.byKey && base !in p.byKey.Values;
    forall k | k in q.byKey
      ensures exists i :: 0 <= i < |es| && EndpointOf(es[i]) == k && q.byKey[k] == naming.Base(es[i].baseUrl)
    {
      if k == EndpointOf(last) {
        assert es[|init|] == last;
      } else {
        var i :| 0 <= i < |init| && EndpointOf(init[i]) == k && p.byKey[k] == naming.Base(init[i].baseUrl);
        assert es[i] == init[i];
      }
    }
  }

  lemma {:induction false} EntriesApart(naming: Naming, es: seq<Entry>)
    requires AllApart(naming, es)
    ensures Apart(naming, es, AddEntries(naming, es))
  {
    if es != [] {
      var init, last := es[..|es| - 1], es[|es| - 1];
      assert es == init + [last];
      EntriesApart(naming, init);
      ApartOneMore(naming, init, last, AddEntries(naming, init));
    }
  }

  predicate NormalSoFar(infer: string -> bool, raw: seq<Provider>, done: seq<Provider>) {
    |done| == |raw| && forall i | 0 <= i < |raw| :: done[i] == NormalProvider(infer, raw[i])
  }

  lemma OneMoreProviderStays(infer: string -> bool, init: seq<Provider>, last: Provider, done: seq<Provider>,
      problems: seq<Problem>)
    requires NormalSoFar(infer, init, done) && ValidSlug(last.id)
    requires forall i | 0 <= i < |init| :: ValidSlug(init[i].id) && init[i].id != last.id
    ensures NormalSoFar(infer, init + [last], AddProvider((done, problems), NormalProvider(infer, last)).0)
  {
    SlugsAreStripped(last.id);
    forall i | 0 <= i < |init| ensures done[i].id == init[i].id { SlugsAreStripped(init[i].id); }
  }

  /** Providers with distinct valid ids all stay. */
  lemma {:induction false} DistinctProvidersStay(infer: string -> bool, raw: seq<Provider>)
    requires DistinctProviders(raw) && forall i | 0 <= i < |raw| :: ValidSlug(raw[i].id)
    ensures NormalSoFar(infer, raw, NormalProviders(infer, raw).0)
  {
    if raw != [] {
      var init, last := raw[..|raw| - 1], raw[|raw| - 1];
      DistinctProvidersStay(infer, init);
      OneMoreProviderStays(infer, init, last, NormalProviders(infer, init).0, NormalProviders(infer, init).1);
      assert raw == init + [last];
    }
  }

  /** Models in normal form with distinct ids and known providers all stay. */
  lemma {:induction false} DistinctModelsStay(raw: seq<Model>, ps: seq<Provider>)
    requires DistinctModels(raw)
    requires forall i | 0 <= i < |raw| ::
      NormalModel(raw[i]) == raw[i] && ValidSlug(raw[i].id) && ProviderAt(ps, raw[i].providerId).Some?
    ensures NormalModels(raw, ps).0 == raw
  {
    if raw != [] {
      var init, last := raw[..|raw| - 1], raw[|raw| - 1];
      assert raw == init + [last];
      DistinctModelsStay(init, ps);
      NormalModelsSnoc(init, last, ps);
      assert AddModel((init, NormalModels(init, ps).1), last, ps).0 == init + [last];
    }
  }

  lemma FixedModelIsNormal(naming: Naming, e: Entry)
    requires Fixed(e)
    ensures NormalModel(ModelFor(naming, e)) == ModelFor(naming, e)
  {
    SlugsAreStripped(e.id);
    BaseIsSlug(naming, e.baseUrl);
    SlugsAreStripped(naming.Base(e.baseUrl));
  }

  lemma ProviderIsFound(infer: string -> bool, raw: seq<Provider>, ps: seq<Provider>, i: nat)
    requires NormalSoFar(infer, raw, ps) && i < |raw| && ValidSlug(raw[i].id)
    ensures ProviderAt(ps, raw[i].id).Some?
  {
    SlugsAreStripped(raw[i].id);
    assert ps[i].id == raw[i].id;
  }

  /** Entries that share nothing come through the migration and its normalisation one by one. */
  lemma ApartAreStored(naming: Naming, infer: string -> bool, es: seq<Entry>)
    requires AllApart(naming, es)
    ensures var p := AddEntries(naming, es);
      && |p.models| == |p.providers| == |es| && NormalSoFar(infer, p.providers, NormalProviders(infer, p.providers).0)
      && NormalModels(p.models, NormalProviders(infer, p.providers).0).0 == p.models
      && DistinctModels(p.models)
      && forall i | 0 <= i < |es| ::
         p.models[i] == ModelFor(naming, es[i]) && p.providers[i] == ProviderFor(naming, es[i])
  {
    var p := AddEntries(naming, es);
    var ps := NormalProviders(infer, p.providers).0;
    EntriesApart(naming, es);
    forall i | 0 <= i < |es| ensures ValidSlug(p.providers[i].id) { BaseIsSlug(naming, es[i].baseUrl); }
    forall i, j | 0 <= i < j < |es| ensures p.providers[i].id != p.providers[j].id && p.models[i].id != p.models[j].id {
      assert DistinctEndpoints(naming, es[i], es[j]);
    }
    DistinctProvidersStay(infer, p.providers);
    forall i | 0 <= i < |es|
      ensures NormalModel(p.models[i]) == p.models[i] && ValidSlug(p.models[i].id) &&
        ProviderAt(ps, p.models[i].providerId).Some?
    {
      FixedModelIsNormal(naming, es[i]);
      ProviderIsFound(infer, p.providers, ps, i);
    }
    DistinctModelsStay(p.models, ps);
  }

  predicate AllServe(es: seq<Entry>) { forall i | 0 <= i < |es| :: HasEndpoint(ProviderOf(es[i])) }

  /** The tables of such entries once they are stored. */
  predicate Tabled(naming: Naming, infer: string -> bool, es: seq<Entry>, s: Structure) {
    && |s.models| == |s.providers| == |es| && DistinctModels(s.models)
    && forall i | 0 <= i < |es| ::
      s.models[i] == ModelFor(naming, es[i]) && s.providers[i] == NormalProvider(infer, ProviderFor(naming, es[i]))
  }

  lemma {:induction false} StoredAreTabled(naming: Naming, infer: string -> bool, es: seq<Entry>, s: Structure)
    requires AllApart(naming, es)
    requires s.providers == NormalProviders(infer, AddEntries(naming, es).providers).0
    requires s.models == NormalModels(AddEntries(naming, es).models, s.providers).0
    ensures Tabled(naming, infer, es, s)
  {
    ApartAreStored(naming, infer, es);
  }

  lemma StoredProviderServes(naming: Naming, infer: string -> bool, d: Entry, e: Entry)
    requires Fixed(d) && HasEndpoint(ProviderOf(d)) && HasEndpoint(ProviderOf(e))
    ensures var p := NormalProvider(infer, ProviderFor(naming, d));
      p.enabled && Configured(Bind(ModelFor(naming, e), p))
  {
    assert TrimUrl(d.baseUrl) == d.baseUrl;
  }

  lemma EveryProviderServes(naming: Naming, infer: string -> bool, es: seq<Entry>, s: Structure, i: nat)
    requires Tabled(naming, infer, es, s) && AllServe(es) && (forall j | 0 <= j < |es| :: Fixed(es[j])) && i < |es|
    ensures forall j | 0 <= j < |s.providers| :: s.providers[j].enabled && Configured(Bind(s.models[i], s.providers[j]))
  {
    forall j | 0 <= j < |s.providers| ensures s.providers[j].enabled && Configured(Bind(s.models[i], s.providers[j])) {
      StoredProviderServes(naming, infer, es[j], es[i]);
    }
  }

  lemma StoredProviderId(naming: Naming, infer: string -> bool, e: Entry)
    ensures NormalProvider(infer, ProviderFor(naming, e)).id == ModelFor(naming, e).providerId
  {
    BaseIsSlug(naming, e.baseUrl);
    SlugsAreStripped(naming.Base(e.baseUrl));
  }

  lemma TabledProvider(naming: Naming, infer: string -> bool, es: seq<Entry>, s: Structure, i: nat)
    requires Tabled(naming, infer, es, s) && i < |es|
    ensures ProviderAt(s.providers, s.models[i].providerId).Some? && s.models[i].enabled && s.models[i].id == es[i].id
  {
    StoredProviderId(naming, infer, es[i]);
    assert s.providers[i].id == s.models[i].providerId;
  }

  lemma {:induction false} OwnModelAt(ms: seq<Model>, i: nat)
    requires DistinctModels(ms) && i < |ms|
    ensures ModelAt(ms, ms[i].id) == Some(i)
  {
    var j := ModelAt(ms, ms[i].id).value;
    assert !(i < j) && !(j < i);
  }

  /** A model whose provider is in the table is routed when every provider would serve it. */
  lemma {:induction false} ServedIsRouted(s: Structure, stage: Stage, id: string, i: nat)
    requires i < |s.models| && ModelAt(s.models, id) == Some(i) && s.models[i].enabled &&
      StageSupports(stage, s.models[i])
    requires ProviderAt(s.providers, s.models[i].providerId).Some?
    requires forall j | 0 <= j < |s.providers| ::
      s.providers[j].enabled && Configured(Bind(s.models[i], s.providers[j]))
    ensures Route(s, Some(stage), id).Some?
  {
  }

  /** Every such entry can be called by every stage it supports. */
  lemma {:induction false} EntryIsRouted(naming: Naming, infer: string -> bool, es: seq<Entry>, s: Structure,
      stage: Stage, i: nat)
    requires Tabled(naming, infer, es, s) && AllServe(es) && (forall j | 0 <= j < |es| :: Fixed(es[j])) && i < |es|
    requires StageSupports(stage, s.models[i])
    ensures Route(s, Some(stage), es[i].id).Some?
    ensures ModelAt(s.models, es[i].id) == Some(i)
  {
    OwnModelAt(s.models, i);
    TabledProvider(naming, infer, es, s, i);
    EveryProviderServes(naming, infer, es, s, i);
    ServedIsRouted(s, stage, es[i].id, i);
  }

  /** A stage is bound to one model alone, and calls it. */
  predicate Calls(s: Structure, key: string, id: string) {
    ChainOf(s.stages, key) == [id] && Resolve(s, key) != [] && FirstId(Resolve(s, key)) == id
  }

  lemma {:induction false} SingletonIsCalled(s: Structure, stage: Stage, id: string)
    requires StageAt(stage.key) == Some(stage) && stage.key in s.stages &&
      s.stages[stage.key] == NormalChain(stage, [id], s.models).0
    requires Strip(id) == id != "" && ModelAt(s.models, id).Some? &&
      StageSupports(stage, s.models[ModelAt(s.models, id).value])
    requires Route(s, Some(stage), id).Some?
    ensures Calls(s, stage.key, id)
  {
    assert [id][..0] == [] && NormalChain(stage, [], s.models).0 == [];
    assert NormalChain(stage, [id], s.models).0 == [id];
    ResolveSingle(s, Some(stage), id);
  }

  lemma DefaultIsFixed(i: nat)
    requires i < |DEFAULTS|
    ensures Fixed(DEFAULTS[i]) && HasEndpoint(ProviderOf(DEFAULTS[i]))
  {
    DefaultIdsAreSlugs();
    StrippedIsFixed(DEFAULTS[i].title);
    StrippedIsFixed(DEFAULTS[i].baseUrl);
    StrippedIsFixed(DEFAULTS[i].model);
  }

  lemma DefaultBases(naming: Naming)
    requires KnownHosts(naming)
    ensures naming.Base(DEFAULTS[0].baseUrl) == "deepseek" && naming.Base(DEFAULTS[1].baseUrl) == "zhipu"
    ensures naming.Base(DEFAULTS[2].baseUrl) == "mimo"
  {
    assert "api.deepseek.com"[4] == 'd' && "open.bigmodel.cn"[4] == '.' && "api.xiaomimimo.com"[4] == 'x';
  }

  lemma DefaultsDiffer()
    ensures DEFAULTS[0].id != DEFAULTS[1].id && DEFAULTS[0].id != DEFAULTS[2].id && DEFAULTS[1].id != DEFAULTS[2].id
    ensures DEFAULTS[0].baseUrl != DEFAULTS[1].baseUrl && DEFAULTS[0].baseUrl != DEFAULTS[2].baseUrl &&
      DEFAULTS[1].baseUrl != DEFAULTS[2].baseUrl
  {
    assert DEFAULTS[0].id[0] == 'd' && DEFAULTS[1].id[0] == 'g' && DEFAULTS[2].id[0] == 'm';
    assert DEFAULTS[0].baseUrl[8] == 'a' && DEFAULTS[1].baseUrl[8] == 'o' && DEFAULTS[2].baseUrl[8] == 'a';
    assert DEFAULTS[0].baseUrl[12] == 'd' && DEFAULTS[2].baseUrl[12] == 'x';
  }

  lemma ThreeApart(naming: Naming, es: seq<Entry>)
    requires |es| == 3 && Fixed(es[0]) && Fixed(es[1]) && Fixed(es[2])
    requires DistinctEndpoints(naming, es[0], es[1]) && DistinctEndpoints(naming, es[0], es[2]) &&
      DistinctEndpoints(naming, es[1], es[2])
    ensures AllApart(naming, es)
  {
    forall i | 0 <= i < |es| ensures Fixed(es[i]) { assert i == 0 || i == 1 || i == 2; }
    forall i, j | 0 <= i < j < |es| ensures DistinctEndpoints(naming, es[i], es[j]) {
      assert (i == 0 && j == 1) || (i == 0 && j == 2) || (i == 1 && j == 2);
    }
  }

  lemma DefaultsAreApart(naming: Naming)
    requires KnownHosts(naming)
    ensures AllApart(naming, DEFAULTS) && AllServe(DEFAULTS)
  {
    DefaultsServe();
    DefaultPairs(naming);
    ThreeApart(naming, DEFAULTS);
  }

  lemma DefaultsServe()
    ensures AllServe(DEFAULTS) && forall i | 0 <= i < |DEFAULTS| :: Fixed(DEFAULTS[i])
  {
    forall i | 0 <= i < |DEFAULTS|
      ensures Fixed(DEFAULTS[i]) && HasEndpoint(ProviderOf(DEFAULTS[i]))
    {
      DefaultIsFixed(i);
    }
  }

  lemma DefaultPairs(naming: Naming)
    requires KnownHosts(naming)
    ensures DistinctEndpoints(naming, DEFAULTS[0], DEFAULTS[1]) && DistinctEndpoints(naming, DEFAULTS[0], DEFAULTS[2])
    ensures DistinctEndpoints(naming, DEFAULTS[1], DEFAULTS[2])
  {
    DefaultBases(naming);
    DefaultsDiffer();
    assert "deepseek"[0] == 'd' && "zhipu"[0] == 'z' && "mimo"[0] == 'm';
  }

  /** Defaults that no v1 provider speaks for and no entry stands in for. */
  predicate Unclaimed(table: seq<Slot>, defaults: seq<Entry>) {
    && (forall i | 0 <= i < |defaults| ::
       Fixed(defaults[i]) && defaults[i].model != "" && !Holds(table, defaults[i].id))
    && (forall i, j | 0 <= i < j < |defaults| :: defaults[i].id != defaults[j].id)
  }

  lemma MergeFresh(table: seq<Slot>, d: Entry)
    requires Fixed(d) && d.model != "" && !Holds(table, d.id)
    ensures MergeOne(table, d, BLANK, BLANK) == table + [Slot(d.id, d)]
  {
    assert Strip("") == "";
  }

  lemma StillFresh(table: seq<Slot>, defaults: seq<Entry>)
    requires defaults != [] && Unclaimed(table, defaults)
    ensures Unclaimed(table + [Slot(defaults[0].id, defaults[0])], defaults[1..])
  {
    var rest := defaults[1..];
    forall i | 0 <= i < |rest|
      ensures Fixed(rest[i]) && rest[i].model != "" && !Holds(table + [Slot(defaults[0].id, defaults[0])], rest[i].id)
    {
      assert rest[i] == defaults[i + 1];
    }
  }

  lemma ValuesSnoc(table: seq<Slot>, slot: Slot)
    ensures Values(table + [slot]) == Values(table) + [slot.entry]
  {
  }

  lemma {:induction false} FreshDefaults(table: seq<Slot>, defaults: seq<Entry>)
    requires Unclaimed(table, defaults)
    ensures Values(WithDefaults(table, defaults, BLANK, BLANK)) == Values(table) + defaults
    decreases |defaults|
  {
    if defaults != [] {
      var d, rest := defaults[0], defaults[1..];
      var next := table + [Slot(d.id, d)];
      assert MergeOne(table, d, BLANK, BLANK) == next by { MergeFresh(table, d); }
      StillFresh(table, defaults);
      FreshDefaults(next, rest);
      ValuesSnoc(table, Slot(d.id, d));
      assert Values(table) + defaults == Values(table) + [d] + rest;
    }
  }

  lemma DefaultsAreFresh()
    ensures Unclaimed([], DEFAULTS)
  {
    DefaultsServe();
    DefaultsDiffer();
    assert |DEFAULTS[0].model| > 0 && |DEFAULTS[1].model| > 0 && |DEFAULTS[2].model| > 0;
    forall i | 0 <= i < |DEFAULTS| ensures DEFAULTS[i].model != "" { assert i == 0 || i == 1 || i == 2; }
    forall i, j | 0 <= i < j < |DEFAULTS| ensures DEFAULTS[i].id != DEFAULTS[j].id {
      assert (i == 0 && j == 1) || (i == 0 && j == 2) || (i == 1 && j == 2);
    }
  }

  const NO_FIELDS := V1Config([], Heads("", "", ""), BLANK, BLANK)

  lemma BlankMerge()
    ensures MergedEntries(NO_FIELDS) == DEFAULTS
  {
    DefaultsAreFresh();
    FreshDefaults([], DEFAULTS);
    assert Slots([]) == [];
  }

  /** Without heads or fallbacks each stage is given the first default that can serve it. */
  lemma BlankSelection()
    ensures SelectedText(NO_FIELDS) == Some(DEFAULTS[0]) && SelectedImage(NO_FIELDS) == Some(DEFAULTS[1])
    ensures SelectedContext(NO_FIELDS) == Some(DEFAULTS[0])
  {
    BlankMerge();
    DefaultsServe();
    DefaultIdsAreSlugs();
    NothingNamed(DEFAULTS, NeedsText, BLANK);
    assert Strip("") == "";
    FirstCapableIsSecond(DEFAULTS, NeedsImage, BLANK);
    ContextOfFirst(DEFAULTS, ProviderOf(DEFAULTS[0]));
  }

  lemma FirstCapableIsSecond(es: seq<Entry>, need: Need, fallback: V1Provider)
    requires |es| > 1 && !Capable(es[0], need) && Capable(es[1], need) && !HasEndpoint(fallback)
    requires forall i | 0 <= i < |es| :: es[i].id != ""
    ensures Selected(es, need, "", fallback) == Some(es[1])
  {
    assert forall i | 0 <= i < |es| :: !Wanted(es[i], need, ById(""));
    assert es[1..][0] == es[1] && Wanted(es[1], need, First) && !Wanted(es[0], need, First);
    assert FirstWanted(es[1..], need, First) == Some(es[1]);
  }

  lemma ContextOfFirst(es: seq<Entry>, fallback: V1Provider)
    requires es != [] && Capable(es[0], NeedsText) && Fixed(es[0]) && fallback == ProviderOf(es[0])
    requires forall i | 0 <= i < |es| :: es[i].id != ""
    ensures Selected(es, NeedsText, "", fallback) == Some(es[0])
  {
    assert forall i | 0 <= i < |es| :: !Wanted(es[i], NeedsText, ById(""));
    assert Wanted(es[0], NeedsText, ByEndpoint(fallback));
  }

  // ---------------------------------------------------------------- the save of such a file

  const EMPTY_FILE := StoredFile(Structure([], [], map[]), BLANK, BLANK)

  lemma EmptyLoads(infer: string -> bool)
    ensures Load(infer, EMPTY_FILE).structure.models == [] && Load(infer, EMPTY_FILE).v1 == NO_FIELDS
  {
    NoModelsNoView(Load(infer, EMPTY_FILE).structure);
  }

  lemma BlankRebuilt(naming: Naming)
    ensures RebuiltChain(naming, NO_FIELDS, TEXT_STAGE) == [DEFAULTS[0].id]
    ensures RebuiltChain(naming, NO_FIELDS, CONTEXT_STAGE) == [DEFAULTS[0].id]
    ensures RebuiltChain(naming, NO_FIELDS, IMAGE_STAGE) == [DEFAULTS[1].id]
    ensures RebuiltChain(naming, NO_FIELDS, AUTHORITATIVE_STAGE) == [DEFAULTS[2].id]
  {
    BlankMerge();
    BlankSelection();
    RebuiltIs(naming, NO_FIELDS);
    MimoIsTheThird();
    DefaultIdsAreSlugs();
    assert HasId(DEFAULTS, DEFAULTS[0].id) && HasId(DEFAULTS, DEFAULTS[1].id) && HasId(DEFAULTS, DEFAULTS[2].id);
    PlainIdIn(naming, DEFAULTS, DEFAULTS[0].id);
    PlainIdIn(naming, DEFAULTS, DEFAULTS[1].id);
    PlainIdIn(naming, DEFAULTS, DEFAULTS[2].id);
  }

  lemma MimoIsTheThird()
    ensures MimoId(DEFAULTS) == DEFAULTS[2].id
  {
    DefaultsDiffer();
    DefaultIdsAreSlugs();
    assert DEFAULTS[0].model[0] == 'd' && DEFAULTS[1].model[0] == 'g' && MIMO[0] == 'm';
    assert DEFAULTS[1..][0] == DEFAULTS[1] && DEFAULTS[1..][1..][0] == DEFAULTS[2];
    assert MimoId(DEFAULTS[1..][1..]) == DEFAULTS[2].id;
    assert MimoId(DEFAULTS[1..]) == DEFAULTS[2].id;
  }

  /** One stage of the saved file: nothing is on disk, so the rebuilt chain is stored, and it is called. */
  lemma {:induction false} DefaultIsCalled(naming: Naming, infer: string -> bool, k: nat, i: nat)
    requires KnownHosts(naming) && k < |STAGES| && i < |DEFAULTS| &&
      RebuiltChain(naming, NO_FIELDS, STAGES[k].key) == [DEFAULTS[i].id]
    requires StageSupports(STAGES[k], ModelFor(naming, DEFAULTS[i]))
    ensures Calls(SaveV1(naming, infer, map[], NO_FIELDS).structure, STAGES[k].key, DEFAULTS[i].id)
  {
    var s := SaveV1(naming, infer, map[], NO_FIELDS).structure;
    BlankMerge();
    DefaultsAreApart(naming);
    DefaultsServe();
    DefaultIdsAreSlugs();
    StoredAreTabled(naming, infer, DEFAULTS, s);
    EntryIsRouted(naming, infer, DEFAULTS, s, STAGES[k], i);
    StoredChainIs(naming, infer, map[], NO_FIELDS, k);
    StagesAreFound();
    SingletonIsCalled(s, STAGES[k], DEFAULTS[i].id);
  }

  /** A file without models calls nothing at any stage. Saving what was loaded from it binds four stages to the
      default models, and they are called from then on. */
  lemma EmptyFileGetsTheDefaults(naming: Naming, infer: string -> bool)
    requires KnownHosts(naming)
    ensures var c, saved := Load(infer, EMPTY_FILE), Save(naming, infer, EMPTY_FILE, Load(infer, EMPTY_FILE));
      && (forall key :: Resolve(c.structure, key) == []) && saved.Some?
      && Calls(saved.value.structure, TEXT_STAGE, "deepseek-v4-flash")
      && Calls(saved.value.structure, CONTEXT_STAGE, "deepseek-v4-flash")
      && Calls(saved.value.structure, IMAGE_STAGE, "glm-ocr") && Calls(saved.value.structure, AUTHORITATIVE_STAGE, MIMO)
  {
    EmptyLoads(infer);
    NoModelsNoView(Load(infer, EMPTY_FILE).structure);
    BlankRebuilt(naming);
    DefaultIsCalled(naming, infer, 3, 0);
    DefaultIsCalled(naming, infer, 1, 0);
    DefaultIsCalled(naming, infer, 4, 1);
    DefaultIsCalled(naming, infer, 0, 2);
  }
}
