/** Saves of the v1 fields on particular inputs: when the fallbacks of a saved file are safe, and a chain that
    is replaced. */
module AiLegacyInputs {
  import opened Options
  import opened Texts
  import opened AiConfig
  import opened AiConfigSave
  import opened AiConfigRoundTrip
  import opened AiPreserve
  import opened AiMigration
  import opened AiMigrationRoundTrip
  import opened AiLegacySave
  import opened AiFallbacks
  import opened AiConfigFile

  // ---------------------------------------------------------------- an entry no default replaces

  predicate IsDefault(id: string) { exists i :: 0 <= i < |DEFAULTS| && DEFAULTS[i].id == id }

  predicate HasSlot(table: seq<Slot>, slot: Slot) { exists i :: 0 <= i < |table| && table[i] == slot }

  lemma PutElsewhere(table: seq<Slot>, key: string, e: Entry, slot: Slot)
    ensures HasSlot(Put(table, key, e), Slot(key, e))
    ensures slot.key != key && HasSlot(table, slot) ==> HasSlot(Put(table, key, e), slot)
  {
    var more, at := Put(table, key, e), SlotAt(table, key);
    assert more[if at.Some? then at.value else |table|] == Slot(key, e);
    if slot.key != key && HasSlot(table, slot) {
      var i :| 0 <= i < |table| && table[i] == slot;
      assert more[i] == slot;
    }
  }

  lemma {:induction false} SlotsHaveEntry(entries: seq<Entry>, k: nat)
    requires SlugIds(entries) && DistinctEntries(entries) && k < |entries|
    ensures HasSlot(Slots(entries), Slot(entries[k].id, NormalEntry(entries[k])))
    decreases |entries|
  {
    var init, last := SlotsSplit(entries);
    PutElsewhere(Slots(init), last.id, NormalEntry(last), Slot(entries[k].id, NormalEntry(entries[k])));
    if k < |init| {
      assert init[k] == entries[k];
      SlotsHaveEntry(init, k);
    }
  }

  lemma {:induction false} WithDefaultsElsewhere(table: seq<Slot>, defaults: seq<Entry>, text: V1Provider,
      image: V1Provider, slot: Slot)
    requires HasSlot(table, slot) && forall i | 0 <= i < |defaults| :: defaults[i].id != slot.key
    ensures HasSlot(WithDefaults(table, defaults, text, image), slot)
    decreases |defaults|
  {
    if defaults != [] {
      PutElsewhere(table, defaults[0].id, MergeDefault(defaults[0], EntryAt(table, defaults[0].id), text, image), slot);
      WithDefaultsElsewhere(MergeOne(table, defaults[0], text, image), defaults[1..], text, image, slot);
    }
  }

  /** An entry whose id is no default's comes through the merge as it is. */
  lemma OwnEntryStays(v: V1Config, k: nat)
    requires SlugIds(v.entries) && DistinctEntries(v.entries) && k < |v.entries| && !IsDefault(v.entries[k].id)
    ensures NormalEntry(v.entries[k]) in MergedEntries(v)
  {
    var slot := Slot(v.entries[k].id, NormalEntry(v.entries[k]));
    SlotsHaveEntry(v.entries, k);
    WithDefaultsElsewhere(Slots(v.entries), DEFAULTS, v.text, v.image, slot);
    var table := MergedTable(v.entries, v.text, v.image);
    var i :| 0 <= i < |table| && table[i] == slot;
    assert Values(table)[i] == slot.entry;
  }

  // ---------------------------------------------------------------- after a save with models

  lemma {:induction false} ViewAt(ms: seq<Model>, ps: seq<Provider>, k: nat)
    requires (forall i | 0 <= i < |ms| :: ShapedModel(ms[i], ps)) && k < |ms|
    ensures |ViewModels(ms, ps)| == |ms| && ViewEntry(ms[k], ps) == Some(ViewModels(ms, ps)[k])
  {
    ViewIds(ms, ps);
    if k < |ms| - 1 {
      ViewIds(ms[..|ms| - 1], ps);
      ViewAt(ms[..|ms| - 1], ps, k);
    }
  }

  predicate BoundAs(e: Entry, b: Bound) {
    e.id == b.id && e.baseUrl == b.baseUrl && e.model == b.model && e.text == b.text && e.image == b.image
  }

  /** The v1 entry of a model that a stage calls. */
  lemma CalledEntry(s: Structure, key: string) returns (k: nat)
    requires Shaped(s) && Resolve(s, key) != []
    ensures k < |View(s)| && BoundAs(View(s)[k], Resolve(s, key)[0])
    ensures Configured(Resolve(s, key)[0]) && forall stage | StageAt(key) == Some(stage) ::
      (stage.needsText ==> View(s)[k].text) && (stage.needsImage ==> View(s)[k].image)
  {
    forall i | 0 <= i < |s.models| ensures ShapedModel(s.models[i], s.providers) { assert s.models[i] in s.models; }
    var b := Resolve(s, key)[0];
    ResolvedAt(s, StageAt(key), ChainOf(s.stages, key), 0);
    k := ModelAt(s.models, b.id).value;
    ViewAt(s.models, s.providers, k);
  }

  lemma CapableAgain(e: Entry, need: Need)
    requires Capable(e, need) && TrimUrl(e.baseUrl) == e.baseUrl
    ensures Capable(NormalEntry(e), need)
  {
    StripIdempotent(e.model);
  }

  lemma CalledUrlIsTrimmed(s: Structure, key: string)
    requires UrlsTrimmed(s.providers) && Resolve(s, key) != []
    ensures TrimUrl(Resolve(s, key)[0].baseUrl) == Resolve(s, key)[0].baseUrl
  {
    ResolvedAt(s, StageAt(key), ChainOf(s.stages, key), 0);
  }

  /** The head of a called stage still serves when it is not one of the defaults. */
  lemma OwnHeadServes(s: Structure, v: V1Config, stage: Stage, need: Need)
    requires Shaped(s) && UrlsTrimmed(s.providers) && v.entries == View(s)
    requires StageAt(stage.key) == Some(stage) && (if need.NeedsText? then stage.needsText else stage.needsImage)
    requires Resolve(s, stage.key) != [] && !IsDefault(FirstId(Resolve(s, stage.key)))
    ensures CanServe(MergedEntries(v), need, FirstId(Resolve(s, stage.key)))
  {
    var k := CalledEntry(s, stage.key);
    var e := View(s)[k];
    CalledUrlIsTrimmed(s, stage.key);
    CapableAgain(e, need);
    ViewHasIds(s, "");
    ViewIsDistinct(s);
    OwnEntryStays(v, k);
    SlugsAreStripped(e.id);
    var i :| 0 <= i < |MergedEntries(v)| && MergedEntries(v)[i] == NormalEntry(e);
    assert MergedEntries(v)[i].id == FirstId(Resolve(s, stage.key));
  }

  lemma ViewIsDistinct(s: Structure)
    requires Shaped(s)
    ensures DistinctEntries(View(s))
  {
    forall i | 0 <= i < |s.models| ensures ShapedModel(s.models[i], s.providers) { assert s.models[i] in s.models; }
    ViewIds(s.models, s.providers);
    forall i, j | 0 <= i < j < |View(s)|
      ensures View(s)[i].id != View(s)[j].id
    {
      assert s.models[i].id != s.models[j].id;
    }
  }

  lemma SavedLeads(naming: Naming, infer: string -> bool, file: StoredFile) returns (saved: Config)
    requires SettledFile(file) && Load(infer, file).structure.models != []
    ensures Save(naming, infer, file, Load(infer, file)) == Some(saved)
    ensures Shaped(saved.structure) && HeadsLead(saved.structure) && UrlsTrimmed(saved.structure.providers)
    ensures saved.v1.entries == View(saved.structure) && saved.v1.heads == DerivedHeads(saved.structure)
  {
    var loaded := Load(infer, file).structure;
    SavedIs(infer, file.structure);
    LoadedUrlsTrimmed(infer, file.structure);
    RetrimmedIsSameIff(loaded.providers);
    assert loaded.(providers := Retrimmed(loaded.providers)) == loaded;
    PromotingOwnHeadsKeepsRoutes(loaded);
    saved := Save(naming, infer, file, Load(infer, file)).value;
  }

  predicate OwnHead(s: Structure, key: string) { Resolve(s, key) != [] && !IsDefault(FirstId(Resolve(s, key))) }

  /** Saving the new form promotes every head, so a later save of its v1 fields alone loses no fallback of a
      stage that is called and whose head is not one of the defaults. */
  lemma SavedFallbacksSurvive(naming: Naming, infer: string -> bool, file: StoredFile)
    requires SettledFile(file) && Load(infer, file).structure.models != []
    ensures Save(naming, infer, file, Load(infer, file)).Some?
    ensures var saved := Save(naming, infer, file, Load(infer, file)).value;
      forall key | key in {TEXT_STAGE, IMAGE_STAGE, CONTEXT_STAGE} && OwnHead(saved.structure, key) ::
        Survives(naming, saved.structure.stages, saved.v1, key)
        && OnDisk(naming, saved.structure.stages, saved.v1, key) == ChainOf(saved.structure.stages, key)
  {
    var saved := SavedLeads(naming, infer, file);
    var s, v := saved.structure, saved.v1;
    var text, image, context := LegacyStages();
    MirrorFallbacksSurviveIff(naming, s, v);
    MirrorOnDisk(naming, s, v, text);
    MirrorOnDisk(naming, s, v, image);
    MirrorOnDisk(naming, s, v, context);
    if OwnHead(s, TEXT_STAGE) { OwnHeadServes(s, v, text, NeedsText); }
    if OwnHead(s, IMAGE_STAGE) { OwnHeadServes(s, v, image, NeedsImage); }
    if OwnHead(s, CONTEXT_STAGE) { OwnHeadServes(s, v, context, NeedsText); }
  }

  // ---------------------------------------------------------------- a chain that is replaced

  const BLANK := V1Provider("", "", "", 60)

  lemma {:induction false} FirstSlotStays(entries: seq<Entry>)
    requires entries != [] && SlugIds(entries) && DistinctEntries(entries)
    ensures Slots(entries) != [] && Slots(entries)[0] == Slot(entries[0].id, NormalEntry(entries[0]))
    decreases |entries|
  {
    var init, last := SlotsSplit(entries);
    if init == [] {
      assert Slots(init) == [];
    } else {
      assert init[0] == entries[0];
      FirstSlotStays(init);
    }
  }

  lemma {:induction false} DefaultsGoBehind(table: seq<Slot>, defaults: seq<Entry>, text: V1Provider, image: V1Provider)
    requires table != [] && forall i | 0 <= i < |defaults| :: defaults[i].id != table[0].key
    ensures var more := WithDefaults(table, defaults, text, image); more != [] && more[0] == table[0]
    decreases |defaults|
  {
    if defaults != [] { DefaultsGoBehind(MergeOne(table, defaults[0], text, image), defaults[1..], text, image); }
  }

  lemma FirstEntryStays(v: V1Config)
    requires v.entries != [] && SlugIds(v.entries) && DistinctEntries(v.entries) && !IsDefault(v.entries[0].id)
    ensures MergedEntries(v) != [] && MergedEntries(v)[0] == NormalEntry(v.entries[0])
  {
    FirstSlotStays(v.entries);
    forall i | 0 <= i < |DEFAULTS| ensures DEFAULTS[i].id != v.entries[0].id { }
    DefaultsGoBehind(Slots(v.entries), DEFAULTS, v.text, v.image);
  }

  lemma NothingNamed(es: seq<Entry>, need: Need, fallback: V1Provider)
    requires es != [] && Capable(es[0], need) && !HasEndpoint(fallback)
    requires forall i | 0 <= i < |es| :: es[i].id != ""
    ensures Selected(es, need, "", fallback) == Some(es[0])
  {
    assert forall i | 0 <= i < |es| :: !Wanted(es[i], need, ById(""));
    assert Wanted(es[0], need, First);
  }

  /** With no head and no fallback endpoint, the first entry of the list is selected when it can serve. */
  lemma FirstEntrySelected(v: V1Config)
    requires v.entries != [] && SlugIds(v.entries) && DistinctEntries(v.entries) && !IsDefault(v.entries[0].id)
    requires Capable(NormalEntry(v.entries[0]), NeedsText) && v.heads.text == "" && !HasEndpoint(v.text)
    ensures SelectedText(v) == Some(NormalEntry(v.entries[0]))
  {
    FirstEntryStays(v);
    MergedKeyed(v, 0);
    NothingNamed(MergedEntries(v), NeedsText, v.text);
  }

  lemma FirstEntryRebuilt(naming: Naming, v: V1Config)
    requires v.entries != [] && SlugIds(v.entries) && DistinctEntries(v.entries) && !IsDefault(v.entries[0].id)
    requires Capable(NormalEntry(v.entries[0]), NeedsText) && v.heads.text == "" && !HasEndpoint(v.text)
    ensures RebuiltChain(naming, v, TEXT_STAGE) == [v.entries[0].id]
  {
    var id := v.entries[0].id;
    FirstEntrySelected(v);
    SlugsAreStripped(id);
    RebuiltIs(naming, v);
    assert HasId(v.entries, id);
    MergedSlugs(v, id);
    PlainIdIn(naming, MergedEntries(v), id);
  }

  lemma OtherLeaderLoses(id: string, previous: seq<string>)
    requires previous != [] && previous[0] != id
    ensures KeptChain([id], previous) == [id]
  {
  }

  /** A text chain that no head names is dropped for the first entry of the list, unless that entry leads it. */
  lemma UnnamedChainIsReplaced(naming: Naming, disk: Chains, v: V1Config)
    requires v.entries != [] && SlugIds(v.entries) && DistinctEntries(v.entries) && !IsDefault(v.entries[0].id)
    requires Capable(NormalEntry(v.entries[0]), NeedsText) && v.heads.text == "" && !HasEndpoint(v.text)
    requires forall id | id in ChainOf(disk, TEXT_STAGE) :: HasId(v.entries, id)
    requires ChainOf(disk, TEXT_STAGE) != [] && ChainOf(disk, TEXT_STAGE)[0] != v.entries[0].id
    ensures OnDisk(naming, disk, v, TEXT_STAGE) == ChainOf(disk, TEXT_STAGE)
    ensures Carried(naming, disk, v, TEXT_STAGE) == [v.entries[0].id]
  {
    var chain := ChainOf(disk, TEXT_STAGE);
    OtherLeaderLoses(v.entries[0].id, chain);
    assert OnDisk(naming, disk, v, TEXT_STAGE) == chain by { MembersAreKnown(naming, v, chain); }
    assert RebuiltChain(naming, v, TEXT_STAGE) == [v.entries[0].id] by { FirstEntryRebuilt(naming, v); }
  }

  /** Two models a user switched off lead the text chain; a third, switched on and listed first, is not in it. */
  const SHELVED := Structure(
    [Provider("p", "P", "https://p", "", 60, true, Some(true))],
    [Model("c", "p", "c", "c", true, false, true), Model("a", "p", "a", "a", true, false, false),
      Model("b", "p", "b", "b", true, false, false)],
    map[TEXT_STAGE := ["a", "b"]])

  function ShelvedEntry(id: string): Entry { Entry(id, id, "https://p", "", id, 60, true, false) }

  lemma DisabledIsNotCalled(s: Structure, stage: Option<Stage>, id: string)
    requires forall i | 0 <= i < |s.models| && s.models[i].id == id :: !s.models[i].enabled
    ensures Route(s, stage, id) == None
  {
    var at := ModelAt(s.models, id);
  }

  lemma {:induction false} NothingRouted(s: Structure, stage: Option<Stage>, chain: seq<string>)
    requires forall i | 0 <= i < |chain| :: Route(s, stage, chain[i]) == None
    ensures ResolveChain(s, stage, chain) == []
  {
    if chain != [] { NothingRouted(s, stage, chain[..|chain| - 1]); }
  }

  lemma ShelvedMirror()
    ensures var v := DerivedView(SHELVED, BLANK, BLANK);
      && Resolve(SHELVED, TEXT_STAGE) == [] && v.heads.text == "" && v.text == BLANK
      && v.entries == [ShelvedEntry("c"), ShelvedEntry("a"), ShelvedEntry("b")]
  {
    var stage, chain := StageAt(TEXT_STAGE), ChainOf(SHELVED.stages, TEXT_STAGE);
    DisabledIsNotCalled(SHELVED, stage, "a");
    DisabledIsNotCalled(SHELVED, stage, "b");
    assert chain == ["a", "b"];
    NothingRouted(SHELVED, stage, chain);
    ShelvedView();
  }

  lemma ShelvedView()
    ensures View(SHELVED) == [ShelvedEntry("c"), ShelvedEntry("a"), ShelvedEntry("b")]
  {
    var es := [ShelvedEntry("c"), ShelvedEntry("a"), ShelvedEntry("b")];
    forall i | 0 <= i < |SHELVED.models| ensures ViewEntry(SHELVED.models[i], SHELVED.providers) == Some(es[i]) {
      assert i == 0 || i == 1 || i == 2;
    }
    ViewIs(SHELVED.models, SHELVED.providers, es);
  }

  lemma ShelvedEntryIsNormal(id: string)
    requires id == "a" || id == "b" || id == "c"
    ensures NormalEntry(ShelvedEntry(id)) == ShelvedEntry(id) && ValidSlug(id) && !IsDefault(id)
    ensures Capable(ShelvedEntry(id), NeedsText)
  {
    StrippedIsFixed("https://p");
    assert |DEFAULTS[0].id| > 1 && |DEFAULTS[1].id| > 1 && |DEFAULTS[2].id| > 1;
  }

  lemma ShelvedIds()
    ensures var es := [ShelvedEntry("c"), ShelvedEntry("a"), ShelvedEntry("b")];
      SlugIds(es) && DistinctEntries(es) && HasId(es, "a") && HasId(es, "b")
  {
    var es := [ShelvedEntry("c"), ShelvedEntry("a"), ShelvedEntry("b")];
    assert es[0].id == "c" && es[1].id == "a" && es[2].id == "b";
  }

  /** The chain is not called, so no head names it; a save of the v1 fields alone gives the stage to the first
      entry that can serve, which the mirror lists as switched on, and drops the chain. */
  lemma ShelvedChainIsReplaced(naming: Naming)
    ensures var v := DerivedView(SHELVED, BLANK, BLANK);
      && Resolve(SHELVED, TEXT_STAGE) == [] && OnDisk(naming, SHELVED.stages, v, TEXT_STAGE) == ["a", "b"]
      && Carried(naming, SHELVED.stages, v, TEXT_STAGE) == ["c"]
  {
    var v := DerivedView(SHELVED, BLANK, BLANK);
    ShelvedMirror();
    ShelvedIds();
    ShelvedEntryIsNormal("c");
    assert SHELVED.stages[TEXT_STAGE] == ["a", "b"];
    UnnamedChainIsReplaced(naming, SHELVED.stages, v);
  }
}
