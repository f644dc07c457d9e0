/** What a v1-shaped save does to the fallbacks behind each stage's first model: exactly when the chain on
    disk comes through, stage by stage. */
module AiFallbacks {
  import opened Options
  import opened Texts
  import opened AiConfig
  import opened AiConfigSave
  import opened AiConfigRoundTrip
  import opened AiPreserve
  import opened AiMigration
  import opened AiMigrationRoundTrip
  import opened AiLegacySave

  const AUTHORITATIVE_STAGE := "authoritative_recognition"
  const ALERT_STAGE := "strategy_alert"

  /** What the v1 fields alone say of a stage. */
  function RebuiltChain(naming: Naming, v: V1Config, key: string): seq<string> {
    ChainOf(Remade(naming, v).stages, key)
  }

  /** The chain on disk, as far as its members are still models. */
  function OnDisk(naming: Naming, disk: Chains, v: V1Config, key: string): seq<string> {
    Known(ChainOf(disk, key), Remade(naming, v).models)
  }

  /** The chain the save goes on with. */
  function Carried(naming: Naming, disk: Chains, v: V1Config, key: string): seq<string> {
    KeptChain(RebuiltChain(naming, v, key), OnDisk(naming, disk, v, key))
  }

  predicate Survives(naming: Naming, disk: Chains, v: V1Config, key: string) {
    Carried(naming, disk, v, key) == OnDisk(naming, disk, v, key)
  }

  // ---------------------------------------------------------------- what is rebuilt

  /** The migrated id of an entry. */
  function IdIn(naming: Naming, es: seq<Entry>, id: string): string {
    var table := AddEntries(naming, es).bySource;
    if id in table then table[id] else ""
  }

  function NamedBy(naming: Naming, v: V1Config, e: Option<Entry>): Option<string> {
    if e.Some? then Some(IdIn(naming, MergedEntries(v), e.value.id)) else None
  }

  /** The entry production calls always exists: the mimo default is merged into every list. */
  lemma {:induction false} MimoIsThere(es: seq<Entry>)
    requires HasId(es, MIMO) && forall i | 0 <= i < |es| :: Strip(es[i].id) == es[i].id != ""
    ensures HasId(es, MimoId(es)) && MimoId(es) != ""
  {
    if es[0].id == MIMO || es[0].model == MIMO {
    } else {
      var i :| 0 <= i < |es| && es[i].id == MIMO;
      assert es[1..][i - 1].id == MIMO;
      MimoIsThere(es[1..]);
      var j :| 0 <= j < |es[1..]| && es[1..][j].id == MimoId(es[1..]);
      assert es[j + 1].id == MimoId(es);
    }
  }

  /** An entry's id always names a chain of one. */
  lemma EntryNamesChain(naming: Naming, es: seq<Entry>, id: string)
    requires HasId(es, id) && Strip(id) == id != ""
    ensures SingleChain(AddEntries(naming, es), id) == [IdIn(naming, es, id)]
  {
    EntriesBindable(naming, es);
    var i :| 0 <= i < |es| && es[i].id == id;
    assert Strip(es[i].id) in AddEntries(naming, es).bySource;
  }

  lemma NoIdNamesNothing(naming: Naming, es: seq<Entry>)
    ensures SingleChain(AddEntries(naming, es), "") == []
  {
    EntriesBindable(naming, es);
  }

  lemma SelectedNamesChain(naming: Naming, v: V1Config, e: Option<Entry>)
    requires e.Some? ==> e.value in MergedEntries(v)
    ensures SingleChain(AddEntries(naming, MergedEntries(v)), IdOf(e)) == AsChain(NamedBy(naming, v, e))
  {
    MergedKeyed(v, 0);
    if e.Some? {
      assert HasId(MergedEntries(v), e.value.id);
      EntryNamesChain(naming, MergedEntries(v), e.value.id);
    } else {
      NoIdNamesNothing(naming, MergedEntries(v));
    }
  }

  lemma SelectedIsAnEntry(es: seq<Entry>, need: Need, active: string, fallback: V1Provider)
    ensures var e := Selected(es, need, active, fallback);
      && (e.Some? ==> e.value in es && Capable(e.value, need))
      && (e == None <==> forall i | 0 <= i < |es| :: !Capable(es[i], need))
  {
    if FirstWanted(es, need, First) == None {
      assert forall i | 0 <= i < |es| :: !Wanted(es[i], need, First);
    }
    if i :| 0 <= i < |es| && Capable(es[i], need) { assert Wanted(es[i], need, First); }
  }

  lemma ChainedElsewhere(p: Progress, entries: seq<Entry>, heads: Heads)
    ensures var c := Chained(p, entries, heads);
      ChainOf(c, AUTHORITATIVE_STAGE) == SingleChain(p, MimoId(entries)) && ChainOf(c, ALERT_STAGE) == []
  {
    assert "batch_text_recognition"[0] == 'b' && "batch_image_recognition"[0] == 'b';
    assert "context_resolution"[0] == 'c' && "strategy_alert"[0] == 's' && "authoritative_recognition"[0] == 'a';
  }

  /** When a text model is selected its context fallback is one too, so the two are there together. */
  lemma ContextWithText(v: V1Config)
    ensures SelectedContext(v) == None <==> SelectedText(v) == None
    ensures SelectedContext(v).Some? ==> SelectedContext(v).value in MergedEntries(v)
    ensures SelectedText(v).Some? ==> SelectedText(v).value in MergedEntries(v)
    ensures SelectedImage(v).Some? ==> SelectedImage(v).value in MergedEntries(v)
  {
    var es := MergedEntries(v);
    SelectedIsAnEntry(es, NeedsText, v.heads.text, v.text);
    SelectedIsAnEntry(es, NeedsImage, v.heads.image, v.image);
    SelectedIsAnEntry(es, NeedsText, v.heads.context,
      if SelectedText(v).Some? then ProviderOf(SelectedText(v).value) else v.text);
  }

  lemma SelectedIdIsPlain(v: V1Config, e: Option<Entry>)
    requires e.Some? ==> e.value in MergedEntries(v)
    ensures Strip(IdOf(e)) == IdOf(e) && (IdOf(e) == "" <==> e == None)
  {
    MergedKeyed(v, 0);
    if e.Some? { var i :| 0 <= i < |MergedEntries(v)| && MergedEntries(v)[i] == e.value; }
  }

  /** What the save rebuilds: one model for each legacy stage that any entry can serve, the mimo entry for the
      authoritative stage, and nothing for the alerts. */
  lemma RebuiltIs(naming: Naming, v: V1Config)
    ensures RebuiltChain(naming, v, TEXT_STAGE) == AsChain(NamedBy(naming, v, SelectedText(v)))
    ensures RebuiltChain(naming, v, IMAGE_STAGE) == AsChain(NamedBy(naming, v, SelectedImage(v)))
    ensures RebuiltChain(naming, v, CONTEXT_STAGE) == AsChain(NamedBy(naming, v, SelectedContext(v)))
    ensures RebuiltChain(naming, v, AUTHORITATIVE_STAGE) == [IdIn(naming, MergedEntries(v), MimoId(MergedEntries(v)))]
    ensures RebuiltChain(naming, v, ALERT_STAGE) == []
  {
    var es, heads := MergedEntries(v), SelectedHeads(v);
    var p := AddEntries(naming, es);
    ChainedAt(p, es, heads);
    ChainedElsewhere(p, es, heads);
    ContextWithText(v);
    SelectedNamesChain(naming, v, SelectedText(v));
    SelectedNamesChain(naming, v, SelectedImage(v));
    SelectedNamesChain(naming, v, SelectedContext(v));
    SelectedIdIsPlain(v, SelectedText(v));
    SelectedIdIsPlain(v, SelectedContext(v));
    MergedKeyed(v, 2);
    MimoIsThere(es);
    MimoIsPlain(es);
    EntryNamesChain(naming, es, MimoId(es));
  }

  lemma MimoIsPlain(es: seq<Entry>)
    requires HasId(es, MimoId(es)) && forall i | 0 <= i < |es| :: Strip(es[i].id) == es[i].id != ""
    ensures Strip(MimoId(es)) == MimoId(es) != ""
  {
  }

  /** Exactly when a v1-shaped save keeps the whole chain a stage has on disk: the alert chain always, the
      authoritative one when the mimo entry leads it, and a legacy one when the selected model leads it or no
      entry can serve the stage. Whether the chain can be called now does not matter. */
  lemma FallbacksSurviveIff(naming: Naming, disk: Chains, v: V1Config)
    ensures Survives(naming, disk, v, ALERT_STAGE)
    ensures Survives(naming, disk, v, AUTHORITATIVE_STAGE) <==>
      Led(OnDisk(naming, disk, v, AUTHORITATIVE_STAGE), Some(IdIn(naming, MergedEntries(v), MimoId(MergedEntries(v)))))
    ensures Survives(naming, disk, v, TEXT_STAGE) <==>
      Led(OnDisk(naming, disk, v, TEXT_STAGE), NamedBy(naming, v, SelectedText(v)))
    ensures Survives(naming, disk, v, IMAGE_STAGE) <==>
      Led(OnDisk(naming, disk, v, IMAGE_STAGE), NamedBy(naming, v, SelectedImage(v)))
    ensures Survives(naming, disk, v, CONTEXT_STAGE) <==>
      Led(OnDisk(naming, disk, v, CONTEXT_STAGE), NamedBy(naming, v, SelectedContext(v)))
  {
    RebuiltIs(naming, v);
    KeptIsWholeIff(None, OnDisk(naming, disk, v, ALERT_STAGE));
    KeptIsWholeIff(Some(IdIn(naming, MergedEntries(v), MimoId(MergedEntries(v)))),
      OnDisk(naming, disk, v, AUTHORITATIVE_STAGE));
    KeptIsWholeIff(NamedBy(naming, v, SelectedText(v)), OnDisk(naming, disk, v, TEXT_STAGE));
    KeptIsWholeIff(NamedBy(naming, v, SelectedImage(v)), OnDisk(naming, disk, v, IMAGE_STAGE));
    KeptIsWholeIff(NamedBy(naming, v, SelectedContext(v)), OnDisk(naming, disk, v, CONTEXT_STAGE));
  }

  // ---------------------------------------------------------------- what is stored

  lemma {:induction false} NormalStagesAt(raw: Chains, ms: seq<Model>, catalogue: seq<Stage>, i: nat)
    requires DistinctStages(catalogue) && i < |catalogue|
    ensures var stages := NormalStages(raw, ms, catalogue).0;
      catalogue[i].key in stages &&
        stages[catalogue[i].key] == NormalChain(catalogue[i], ChainOf(raw, catalogue[i].key), ms).0
  {
    if i < |catalogue| - 1 { NormalStagesAt(raw, ms, catalogue[..|catalogue| - 1], i); }
  }

  lemma RemadeKeys(naming: Naming, v: V1Config, i: nat)
    requires i < |STAGES|
    ensures STAGES[i].key in Remade(naming, v).stages
  {
    assert i == 0 || i == 1 || i == 2 || i == 3 || i == 4;
  }

  /** The stored chain of every stage is the carried one without what cannot serve the stage any more. */
  lemma StoredChainIs(naming: Naming, infer: string -> bool, disk: Chains, v: V1Config, i: nat)
    requires i < |STAGES|
    ensures var s, key := SaveV1(naming, infer, disk, v).structure, STAGES[i].key;
      key in s.stages && s.stages[key] == NormalChain(STAGES[i], Carried(naming, disk, v, key), s.models).0
  {
    var m := Remade(naming, v);
    StageKeysDiffer();
    RemadeKeys(naming, v, i);
    NormalStagesAt(Preserved(m.stages, disk, m.models), SaveV1(naming, infer, disk, v).structure.models, STAGES, i);
  }

  // ---------------------------------------------------------------- saving the mirror of a stored structure

  predicate SlugIds(es: seq<Entry>) { forall i | 0 <= i < |es| :: ValidSlug(es[i].id) }

  predicate SlugKeys(table: seq<Slot>) { forall i | 0 <= i < |table| :: ValidSlug(table[i].key) }

  lemma PutHolds(table: seq<Slot>, key: string, e: Entry)
    ensures Holds(Put(table, key, e), key) && forall other | Holds(table, other) :: Holds(Put(table, key, e), other)
    ensures SlugKeys(table) && ValidSlug(key) ==> SlugKeys(Put(table, key, e))
  {
    var more, at := Put(table, key, e), SlotAt(table, key);
    assert more[if at.Some? then at.value else |table|].key == key;
    forall other | Holds(table, other) ensures Holds(more, other) {
      assert more[SlotAt(table, other).value].key == other;
    }
  }

  lemma SlotsSplit(entries: seq<Entry>) returns (init: seq<Entry>, last: Entry)
    requires entries != [] && SlugIds(entries)
    ensures entries == init + [last] && |init| < |entries| && SlugIds(init) && ValidSlug(last.id)
    ensures Slots(entries) == Put(Slots(init), last.id, NormalEntry(last))
  {
    init, last := entries[..|entries| - 1], entries[|entries| - 1];
    SlugsAreStripped(last.id);
  }

  lemma {:induction false} SlotsHold(entries: seq<Entry>)
    requires SlugIds(entries)
    ensures SlugKeys(Slots(entries)) && forall i | 0 <= i < |entries| :: Holds(Slots(entries), entries[i].id)
    decreases |entries|
  {
    if entries != [] {
      var init, last := SlotsSplit(entries);
      SlotsHold(init);
      PutHolds(Slots(init), last.id, NormalEntry(last));
    }
  }

  lemma {:induction false} WithDefaultsSlugs(table: seq<Slot>, defaults: seq<Entry>, text: V1Provider,
      image: V1Provider)
    requires SlugKeys(table) && SlugIds(defaults)
    ensures SlugKeys(WithDefaults(table, defaults, text, image))
    decreases |defaults|
  {
    if defaults != [] {
      PutHolds(table, defaults[0].id, MergeDefault(defaults[0], EntryAt(table, defaults[0].id), text, image));
      WithDefaultsSlugs(MergeOne(table, defaults[0], text, image), defaults[1..], text, image);
    }
  }

  lemma ValuesOfSlugs(table: seq<Slot>)
    requires Keyed(table) && SlugKeys(table)
    ensures SlugIds(Values(table))
  {
    forall i | 0 <= i < |table| ensures ValidSlug(table[i].entry.id) { SlugsAreStripped(table[i].key); }
  }

  lemma MergedHolds(v: V1Config, id: string)
    requires Holds(Slots(v.entries), id)
    ensures Holds(MergedTable(v.entries, v.text, v.image), id)
  {
    DefaultIdsAreSlugs();
    SlotsKeyed(v.entries);
    WithDefaultsKeyed(Slots(v.entries), DEFAULTS, v.text, v.image);
  }

  lemma MergedSlugKeys(v: V1Config)
    requires SlugIds(v.entries)
    ensures SlugKeys(MergedTable(v.entries, v.text, v.image)) && SlugIds(MergedEntries(v))
  {
    DefaultIdsAreSlugs();
    SlotsHold(v.entries);
    WithDefaultsSlugs(Slots(v.entries), DEFAULTS, v.text, v.image);
    MergedKeyed(v, 0);
    ValuesOfSlugs(MergedTable(v.entries, v.text, v.image));
  }

  /** A list of valid ids keeps them all through the merge, and only valid ones are added. */
  lemma MergedSlugs(v: V1Config, id: string)
    requires SlugIds(v.entries)
    ensures SlugIds(MergedEntries(v)) && (HasId(v.entries, id) ==> HasId(MergedEntries(v), id))
  {
    MergedSlugKeys(v);
    if HasId(v.entries, id) {
      SlotsHold(v.entries);
      var i :| 0 <= i < |v.entries| && v.entries[i].id == id;
      SlugsAreStripped(id);
      MergedHolds(v, id);
      MergedKeyed(v, 0);
      ValuesOfKeyed(MergedTable(v.entries, v.text, v.image), id);
    }
  }

  lemma PlainIdIn(naming: Naming, es: seq<Entry>, id: string)
    requires HasId(es, id) && ValidSlug(id)
    ensures IdIn(naming, es, id) == id && ModelAt(AddEntries(naming, es).models, id).Some?
  {
    var i :| 0 <= i < |es| && es[i].id == id;
    SlugsAreStripped(id);
    EntriesBindable(naming, es);
    assert Strip(es[i].id) in AddEntries(naming, es).bySource;
  }

  lemma MembersAreKnown(naming: Naming, v: V1Config, chain: seq<string>)
    requires SlugIds(v.entries) && forall id | id in chain :: HasId(v.entries, id)
    ensures Known(chain, Remade(naming, v).models) == chain
  {
    forall id | id in chain ensures ModelAt(Remade(naming, v).models, id).Some? {
      MergedSlugs(v, id);
      PlainIdIn(naming, MergedEntries(v), id);
    }
    KnownMembers(chain, Remade(naming, v).models);
  }

  lemma {:induction false} ViewIds(ms: seq<Model>, ps: seq<Provider>)
    requires forall i | 0 <= i < |ms| :: ShapedModel(ms[i], ps)
    ensures |ViewModels(ms, ps)| == |ms| && forall i | 0 <= i < |ms| :: ViewModels(ms, ps)[i].id == ms[i].id
  {
    if ms != [] { ViewIds(ms[..|ms| - 1], ps); }
  }

  /** The v1 list of a normalised structure has the ids of all its models. */
  lemma ViewHasIds(s: Structure, id: string)
    requires Shaped(s)
    ensures SlugIds(View(s)) && (ModelAt(s.models, id).Some? ==> HasId(View(s), id))
  {
    forall i | 0 <= i < |s.models| ensures ShapedModel(s.models[i], s.providers) { assert s.models[i] in s.models; }
    ViewIds(s.models, s.providers);
    if ModelAt(s.models, id).Some? { assert View(s)[ModelAt(s.models, id).value].id == id; }
  }

  lemma MirrorOnDisk(naming: Naming, s: Structure, v: V1Config, stage: Stage)
    requires Shaped(s) && StageAt(stage.key) == Some(stage) && v.entries == View(s)
    ensures OnDisk(naming, s.stages, v, stage.key) == ChainOf(s.stages, stage.key)
  {
    var chain := ChainOf(s.stages, stage.key);
    ShapedAt(s.stages, s.models, stage);
    ViewHasIds(s, "");
    forall id | id in chain ensures HasId(v.entries, id) {
      var i :| 0 <= i < |chain| && chain[i] == id;
      assert Member(s.models, stage, chain[i]);
      ViewHasIds(s, id);
    }
    MembersAreKnown(naming, v, chain);
  }

  predicate CanServe(es: seq<Entry>, need: Need, id: string) {
    exists i :: 0 <= i < |es| && es[i].id == id && Capable(es[i], need)
  }

  /** The named entry serves, or none does. */
  predicate ServesIfAny(es: seq<Entry>, need: Need, id: string) {
    (exists i :: 0 <= i < |es| && Capable(es[i], need)) ==> CanServe(es, need, id)
  }

  lemma SelectedIsNamedIff(es: seq<Entry>, need: Need, head: string, fallback: V1Provider)
    ensures var e := Selected(es, need, head, fallback); (e.Some? ==> e.value.id == head) <==>
      ServesIfAny(es, need, head)
  {
    var e := Selected(es, need, head, fallback);
    SelectedIsAnEntry(es, need, head, fallback);
    if CanServe(es, need, head) {
      var i :| 0 <= i < |es| && es[i].id == head && Capable(es[i], need);
      assert Wanted(es[i], need, ById(head));
    }
    if e.Some? {
      var i :| 0 <= i < |es| && es[i] == e.value;
      assert Capable(es[i], need);
    }
  }

  /** The head leads its chain; the save keeps that chain exactly when the head is selected again. */
  lemma HeadSelectedIff(naming: Naming, v: V1Config, chain: seq<string>, e: Option<Entry>)
    requires SlugIds(v.entries) && chain != [] && (e.Some? ==> e.value in MergedEntries(v))
    ensures Led(chain, NamedBy(naming, v, e)) <==> (e.Some? ==> e.value.id == chain[0])
  {
    if e.Some? {
      MergedSlugs(v, e.value.id);
      assert HasId(MergedEntries(v), e.value.id);
      PlainIdIn(naming, MergedEntries(v), e.value.id);
    }
  }

  /** A configuration whose stages are each led by the model they call, saved again with its v1 fields alone:
      a called stage keeps its fallbacks exactly when its head still serves after the defaults are merged in. */
  lemma MirrorFallbacksSurviveIff(naming: Naming, s: Structure, v: V1Config)
    requires Shaped(s) && HeadsLead(s) && v.entries == View(s) && v.heads == DerivedHeads(s)
    ensures Resolve(s, TEXT_STAGE) != [] ==>
      (Survives(naming, s.stages, v, TEXT_STAGE) <==> ServesIfAny(MergedEntries(v), NeedsText, v.heads.text))
    ensures Resolve(s, IMAGE_STAGE) != [] ==>
      (Survives(naming, s.stages, v, IMAGE_STAGE) <==> ServesIfAny(MergedEntries(v), NeedsImage, v.heads.image))
    ensures Resolve(s, CONTEXT_STAGE) != [] ==>
      (Survives(naming, s.stages, v, CONTEXT_STAGE) <==> ServesIfAny(MergedEntries(v), NeedsText, v.heads.context))
  {
    var es := MergedEntries(v);
    var text, image, context := LegacyStages();
    MirrorOnDisk(naming, s, v, text);
    MirrorOnDisk(naming, s, v, image);
    MirrorOnDisk(naming, s, v, context);
    FallbacksSurviveIff(naming, s.stages, v);
    ContextWithText(v);
    ViewHasIds(s, "");
    SelectedIsNamedIff(es, NeedsText, v.heads.text, v.text);
    SelectedIsNamedIff(es, NeedsImage, v.heads.image, v.image);
    SelectedIsNamedIff(es, NeedsText, v.heads.context,
      if SelectedText(v).Some? then ProviderOf(SelectedText(v).value) else v.text);
    if Resolve(s, TEXT_STAGE) != [] { HeadSelectedIff(naming, v, ChainOf(s.stages, TEXT_STAGE), SelectedText(v)); }
    if Resolve(s, IMAGE_STAGE) != [] { HeadSelectedIff(naming, v, ChainOf(s.stages, IMAGE_STAGE), SelectedImage(v)); }
    if Resolve(s, CONTEXT_STAGE) != [] {
      HeadSelectedIff(naming, v, ChainOf(s.stages, CONTEXT_STAGE), SelectedContext(v));
    }
  }
}
