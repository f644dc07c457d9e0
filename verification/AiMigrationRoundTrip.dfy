/** Migration loses nothing: every entry keeps its endpoint, the v1 view of the result is the list that
    was migrated, and exactly when migrating that view again gives the same answer. */
module AiMigrationRoundTrip {
  import opened Options
  import opened Texts
  import opened AiConfig
  import opened AiConfigSave
  import opened AiConfigRoundTrip
  import opened FreshNames
  import opened AiMigration

  // ---------------------------------------------------------------- every entry keeps its endpoint

  predicate Follows(m: Model, e: Entry, byKey: map<Endpoint, string>) {
    EndpointOf(e) in byKey && m == NewModel(m.id, byKey[EndpointOf(e)], e)
  }

  predicate KeysFollow(p: Progress, es: seq<Entry>) {
    |p.models| == |es| && forall i | 0 <= i < |es| :: Follows(p.models[i], es[i], p.byKey)
  }

  lemma AddEntryFollows(naming: Naming, p: Progress, es: seq<Entry>, raw: Entry)
    requires KeysFollow(p, es) && Strip(raw.id) != ""
    ensures KeysFollow(AddEntry(naming, p, raw), es + [NormalEntry(raw)])
  {
    var q := AddEntry(naming, p, raw);
    forall i | 0 <= i < |es| ensures Follows(q.models[i], es[i], q.byKey) {
      assert Follows(p.models[i], es[i], p.byKey);
    }
  }

  lemma {:induction false} EntriesFollow(naming: Naming, entries: seq<Entry>)
    ensures KeysFollow(AddEntries(naming, entries), KeptEntries(entries))
  {
    if entries != [] {
      var init, raw := entries[..|entries| - 1], entries[|entries| - 1];
      EntriesFollow(naming, init);
      if Strip(raw.id) != "" { AddEntryFollows(naming, AddEntries(naming, init), KeptEntries(init), raw); }
    }
  }

  /** The v1 entry a model and its provider stand for; `None` when the provider is missing. */
  function ViewEntry(m: Model, ps: seq<Provider>): Option<Entry> {
    match ProviderAt(ps, m.providerId)
    case None => None
    case Some(j) =>
      var b := Bind(m, ps[j]);
      Some(Entry(b.id, b.title, b.baseUrl, b.apiKey, b.model, b.timeout, b.text, b.image))
  }

  lemma ServedIsFound(ps: seq<Provider>, id: string, k: Endpoint)
    requires DistinctProviders(ps) && Served(ps, id, k)
    ensures ProviderAt(ps, id).Some? && Serves(ps[ProviderAt(ps, id).value], id, k)
  {
    var i :| 0 <= i < |ps| && Serves(ps[i], id, k);
    var j := ProviderAt(ps, id).value;
    assert !(i < j) && !(j < i);
  }

  lemma {:induction false} KeptTitles(entries: seq<Entry>)
    ensures forall i | 0 <= i < |KeptEntries(entries)| ::
      KeptEntries(entries)[i].title != "" && KeptEntries(entries)[i].id != ""
  {
    if entries != [] { KeptTitles(entries[..|entries| - 1]); }
  }

  /** For any list at all: each kept entry becomes one model, in order, that is called with that entry's
      own base URL, key, timeout and model name; only its id may have been repaired. */
  lemma EndpointsArePreserved(naming: Naming, entries: seq<Entry>, heads: Heads)
    ensures var s, es := Migrate(naming, entries, heads), KeptEntries(entries);
      && |s.models| == |es| && DistinctProviders(s.providers)
      && forall i | 0 <= i < |es| :: ViewEntry(s.models[i], s.providers) == Some(es[i].(id := s.models[i].id))
  {
    var p, es := AddEntries(naming, entries), KeptEntries(entries);
    EntriesFollow(naming, entries);
    ProviderIdsDistinct(naming, entries);
    KeptTitles(entries);
    forall i | 0 <= i < |es| ensures ViewEntry(p.models[i], p.providers) == Some(es[i].(id := p.models[i].id)) {
      assert Follows(p.models[i], es[i], p.byKey);
      ServedIsFound(p.providers, p.byKey[EndpointOf(es[i])], EndpointOf(es[i]));
    }
  }

  // ---------------------------------------------------------------- the view of a migration

  function ViewModels(ms: seq<Model>, ps: seq<Provider>): seq<Entry> {
    if ms == [] then []
    else
      var init := ViewModels(ms[..|ms| - 1], ps);
      var last := ViewEntry(ms[|ms| - 1], ps);
      if last.Some? then init + [last.value] else init
  }

  function View(s: Structure): seq<Entry> { ViewModels(s.models, s.providers) }

  /** Entries as the loaders pass them on: normalised, whatever their ids look like. */
  predicate Plain(entries: seq<Entry>) {
    forall i | 0 <= i < |entries| :: NormalEntry(entries[i]) == entries[i] && entries[i].id != ""
  }

  function GivenIds(entries: seq<Entry>): (ids: seq<string>)
    ensures |ids| == |entries|
  {
    IdsFor(Sources(entries))
  }

  /** The entries under the ids their models are given. */
  function Renamed(entries: seq<Entry>): (r: seq<Entry>)
    ensures |r| == |entries| && forall i | 0 <= i < |r| :: r[i] == entries[i].(id := GivenIds(entries)[i])
  {
    seq(|entries|, i requires 0 <= i < |entries| => entries[i].(id := GivenIds(entries)[i]))
  }

  /** ... and no suffix has made a given id too long to be valid. */
  predicate Ready(entries: seq<Entry>) {
    Plain(entries) && forall i | 0 <= i < |entries| :: ValidSlug(GivenIds(entries)[i])
  }

  lemma KeptSnoc(init: seq<Entry>, last: Entry)
    ensures KeptEntries(init + [last]) ==
            if Strip(last.id) == "" then KeptEntries(init) else KeptEntries(init) + [NormalEntry(last)]
  {
    assert (init + [last])[..|init|] == init;
  }

  lemma PlainSplit(entries: seq<Entry>) returns (init: seq<Entry>, last: Entry)
    requires entries != [] && Plain(entries)
    ensures entries == init + [last] && |init| < |entries| && Plain(init)
    ensures NormalEntry(last) == last && last.id != "" && Strip(last.id) == last.id
  {
    init, last := entries[..|entries| - 1], entries[|entries| - 1];
    assert forall i | 0 <= i < |init| :: init[i] == entries[i];
    assert last == entries[|entries| - 1];
  }

  lemma RenamedSnoc(init: seq<Entry>, last: Entry)
    ensures GivenIds(init + [last]) == GivenIds(init) + [GivenId(Sources(init), last.id)]
    ensures Renamed(init + [last]) == Renamed(init) + [last.(id := GivenId(Sources(init), last.id))]
  {
    SourcesSnoc(init, last);
    IdsSnoc(Sources(init), last.id);
  }

  lemma {:induction false} PlainIsKept(entries: seq<Entry>)
    requires Plain(entries)
    ensures KeptEntries(entries) == entries
    decreases |entries|
  {
    if entries != [] {
      var init, last := PlainSplit(entries);
      PlainIsKept(init);
      KeptSnoc(init, last);
    }
  }

  lemma {:induction false} ViewIs(ms: seq<Model>, ps: seq<Provider>, es: seq<Entry>)
    requires |ms| == |es| && forall i | 0 <= i < |ms| :: ViewEntry(ms[i], ps) == Some(es[i])
    ensures ViewModels(ms, ps) == es
  {
    if ms != [] {
      ViewIs(ms[..|ms| - 1], ps, es[..|es| - 1]);
      assert es == es[..|es| - 1] + [es[|es| - 1]];
    }
  }

  /** Reading the v1 list back off a migration gives the list that was migrated, each entry under its given id;
      valid ids are the given ones. */
  lemma ViewOfMigration(naming: Naming, entries: seq<Entry>, heads: Heads)
    requires Plain(entries)
    ensures View(Migrate(naming, entries, heads)) == Renamed(entries)
    ensures (forall i | 0 <= i < |entries| :: ValidSlug(entries[i].id)) ==> Renamed(entries) == entries
  {
    var s := Migrate(naming, entries, heads);
    PlainIsKept(entries);
    EndpointsArePreserved(naming, entries, heads);
    ModelIdsAre(naming, entries);
    ViewIs(s.models, s.providers, Renamed(entries));
  }

  // ---------------------------------------------------------------- the entries under their given ids

  /** A valid id changes nothing but the table of source ids. */
  lemma AddRenamed(naming: Naming, p: Progress, q: Progress, e: Entry)
    requires NormalEntry(e) == e && e.id != "" && ValidSlug(MigratedId(e.id, p.bySource.Values))
    requires q.providers == p.providers && q.models == p.models && q.byKey == p.byKey
    ensures var u, v := AddEntry(naming, p, e), AddEntry(naming, q, e.(id := MigratedId(e.id, p.bySource.Values)));
      v.providers == u.providers && v.models == u.models && v.byKey == u.byKey
  {
    var id := MigratedId(e.id, p.bySource.Values);
    SlugsAreStripped(id);
    assert NormalEntry(e.(id := id)) == e.(id := id);
  }

  /** So migrating the renamed entries gives the same providers and models. */
  lemma {:induction false} RenamedTables(naming: Naming, entries: seq<Entry>)
    requires Ready(entries)
    ensures var p, q := AddEntries(naming, entries), AddEntries(naming, Renamed(entries));
      q.providers == p.providers && q.models == p.models && q.byKey == p.byKey
    decreases |entries|
  {
    if entries != [] {
      var init, last := PlainSplit(entries);
      RenamedSnoc(init, last);
      assert Ready(init) by {
        forall i | 0 <= i < |init|
          ensures ValidSlug(GivenIds(init)[i])
        {
          assert GivenIds(init)[i] == GivenIds(entries)[i];
        }
      }
      RenamedTables(naming, init);
      PlainIsKept(init);
      ModelIdsAre(naming, init);
      assert GivenIds(entries)[|init|] == GivenId(Sources(init), last.id);
      AddRenamed(naming, AddEntries(naming, init), AddEntries(naming, Renamed(init)), last);
      AddEntriesSnoc(naming, init, last);
      AddEntriesSnoc(naming, Renamed(init), last.(id := GivenId(Sources(init), last.id)));
    }
  }

  lemma AddEntriesSnoc(naming: Naming, init: seq<Entry>, last: Entry)
    ensures AddEntries(naming, init + [last]) == AddEntry(naming, AddEntries(naming, init), last)
  {
    assert (init + [last])[..|init|] == init;
  }

  lemma {:induction false} TableHoldsGiven(sources: seq<string>, k: string)
    requires k in TableOf(sources)
    ensures TableOf(sources)[k] in IdsFor(sources)
  {
    var init, last := sources[..|sources| - 1], sources[|sources| - 1];
    assert sources == init + [last];
    IdsSnoc(init, last);
    if k != last { TableHoldsGiven(init, k); }
  }

  /** The id a head is bound to. */
  function BoundId(entries: seq<Entry>, head: string): Option<string> {
    var table := TableOf(Sources(entries));
    if Strip(head) in table then Some(table[Strip(head)]) else None
  }

  function ChainFor(id: Option<string>): seq<string> { if id.Some? then [id.value] else [] }

  lemma SingleIs(naming: Naming, entries: seq<Entry>, head: string)
    requires Plain(entries)
    ensures SingleChain(AddEntries(naming, entries), head) == ChainFor(BoundId(entries, head))
  {
    PlainIsKept(entries);
    ModelIdsAre(naming, entries);
    EntriesBindable(naming, entries);
  }

  lemma BoundIsRenamed(entries: seq<Entry>, head: string) returns (i: nat)
    requires Ready(entries) && BoundId(entries, head).Some?
    ensures i < |entries| && Renamed(entries)[i].id == BoundId(entries, head).value && ValidSlug(Renamed(entries)[i].id)
  {
    TableHoldsGiven(Sources(entries), Strip(head));
    i :| i < |entries| && GivenIds(entries)[i] == BoundId(entries, head).value;
  }

  /** A bound id names itself among the renamed entries. */
  lemma BoundAgain(naming: Naming, entries: seq<Entry>, head: string)
    requires Ready(entries) && BoundId(entries, head).Some?
    ensures var id := BoundId(entries, head).value;
      Strip(id) == id != "" && SingleChain(AddEntries(naming, Renamed(entries)), id) == [id]
  {
    var i := BoundIsRenamed(entries, head);
    var id, q := BoundId(entries, head).value, AddEntries(naming, Renamed(entries));
    SlugsAreStripped(id);
    EntriesBindable(naming, Renamed(entries));
    assert Strip(Renamed(entries)[i].id) in q.bySource;
  }

  // ---------------------------------------------------------------- migrating the view again

  predicate Usable(s: Structure, key: string) {
    ChainOf(s.stages, key) != [] ==> Resolve(s, key) != []
  }

  /** What a caller can check on the migrated structure: each bound legacy model can be called, and an
      empty context chain is not hiding a text model the migration would fall back to. */
  predicate HeadsUsable(s: Structure) {
    && Usable(s, TEXT_STAGE) && Usable(s, IMAGE_STAGE) && Usable(s, CONTEXT_STAGE)
    && (ChainOf(s.stages, CONTEXT_STAGE) == [] ==> ChainOf(s.stages, TEXT_STAGE) == [])
  }

  lemma ChainedAt(p: Progress, entries: seq<Entry>, heads: Heads)
    ensures var c := Chained(p, entries, heads);
      && ChainOf(c, TEXT_STAGE) == SingleChain(p, heads.text) && ChainOf(c, IMAGE_STAGE) == SingleChain(p, heads.image)
      && ChainOf(c, CONTEXT_STAGE) == SingleChain(p, ContextSource(heads))
  {
    assert "batch_text_recognition"[6] == 't' && "batch_image_recognition"[6] == 'i';
    assert "context_resolution"[0] == 'c' && "batch_text_recognition"[0] == 'b' && "batch_image_recognition"[0] == 'b';
    assert "strategy_alert"[0] == 's';
  }

  lemma ResolveSingle(s: Structure, stage: Option<Stage>, id: string)
    ensures ResolveChain(s, stage, [id]) == [] || FirstId(ResolveChain(s, stage, [id])) == id
    ensures ResolveChain(s, stage, [id]) == [] <==> Route(s, stage, id) == None
  {
    assert [id][..0] == [] && ResolveChain(s, stage, []) == [];
    if ResolveChain(s, stage, [id]) != [] { ResolvedAt(s, stage, [id], 0); }
  }

  /** The head a stage derives names its own chain again among the renamed entries, when the stage can call it. */
  lemma HeadAgain(naming: Naming, entries: seq<Entry>, s: Structure, source: string, key: string)
    requires Ready(entries) && ChainOf(s.stages, key) == SingleChain(AddEntries(naming, entries), source)
    ensures HeadNamesChain(AddEntries(naming, Renamed(entries)), FirstId(Resolve(s, key)),
                           SingleChain(AddEntries(naming, entries), source), Resolve(s, key) != [])
  {
    SingleIs(naming, entries, source);
    EntriesBindable(naming, Renamed(entries));
    if BoundId(entries, source).Some? {
      BoundAgain(naming, entries, source);
      ResolveSingle(s, StageAt(key), BoundId(entries, source).value);
    }
  }

  predicate HeadNamesChain(p: Progress, head: string, chain: seq<string>, called: bool) {
    && SingleChain(p, head) == (if called then chain else [])
    && Strip(head) == head && (head == "" <==> !called) && (called ==> chain != [])
  }

  /** Three chains come back from their derived heads exactly when each that is bound is called and the text
      one does not stand in for an empty context chain. */
  lemma HeadsDecide(q: Progress, derived: Heads, text: seq<string>, image: seq<string>, context: seq<string>,
                    textCalled: bool, imageCalled: bool, contextCalled: bool)
    requires HeadNamesChain(q, derived.text, text, textCalled) && HeadNamesChain(q, derived.image, image, imageCalled)
    requires HeadNamesChain(q, derived.context, context, contextCalled)
    requires text == context ==> textCalled == contextCalled
    ensures (SingleChain(q, derived.text) == text && SingleChain(q, derived.image) == image
             && SingleChain(q, ContextSource(derived)) == context) <==>
            ((text != [] ==> textCalled) && (image != [] ==> imageCalled) && (context != [] ==> contextCalled)
             && (context == [] ==> text == []))
  {
  }

  /** Both stages need text and nothing else, so they call a shared model together or not at all. */
  lemma TextAndContextAgree(s: Structure)
    requires ChainOf(s.stages, TEXT_STAGE) == ChainOf(s.stages, CONTEXT_STAGE) && |ChainOf(s.stages, TEXT_STAGE)| <= 1
    ensures Resolve(s, TEXT_STAGE) == [] <==> Resolve(s, CONTEXT_STAGE) == []
  {
    var text, image, context := LegacyStages();
    var chain := ChainOf(s.stages, TEXT_STAGE);
    if chain != [] {
      assert chain == [chain[0]];
      ResolveSingle(s, Some(text), chain[0]);
      ResolveSingle(s, Some(context), chain[0]);
      assert Route(s, Some(text), chain[0]) == Route(s, Some(context), chain[0]);
    }
  }

  lemma SharedChainAgrees(naming: Naming, entries: seq<Entry>, heads: Heads)
    requires Plain(entries)
    ensures var s, p := Migrate(naming, entries, heads), AddEntries(naming, entries);
      SingleChain(p, heads.text) == SingleChain(p, ContextSource(heads)) ==>
        (Resolve(s, TEXT_STAGE) == [] <==> Resolve(s, CONTEXT_STAGE) == [])
  {
    var s, p := Migrate(naming, entries, heads), AddEntries(naming, entries);
    ChainedAt(p, entries, heads);
    if SingleChain(p, heads.text) == SingleChain(p, ContextSource(heads)) { TextAndContextAgree(s); }
  }

  lemma HeadsUsableIs(naming: Naming, entries: seq<Entry>, heads: Heads)
    ensures var s, p := Migrate(naming, entries, heads), AddEntries(naming, entries);
      HeadsUsable(s) <==>
        ((SingleChain(p, heads.text) != [] ==> Resolve(s, TEXT_STAGE) != [])
         && (SingleChain(p, heads.image) != [] ==> Resolve(s, IMAGE_STAGE) != [])
         && (SingleChain(p, ContextSource(heads)) != [] ==> Resolve(s, CONTEXT_STAGE) != [])
         && (SingleChain(p, ContextSource(heads)) == [] ==> SingleChain(p, heads.text) == []))
  {
    ChainedAt(AddEntries(naming, entries), entries, heads);
  }

  lemma DerivedNames(naming: Naming, entries: seq<Entry>, heads: Heads)
    requires Ready(entries)
    ensures var s, p, q := Migrate(naming, entries, heads), AddEntries(naming, entries),
      AddEntries(naming, Renamed(entries));
      && HeadNamesChain(q, DerivedHeads(s).text, SingleChain(p, heads.text), Resolve(s, TEXT_STAGE) != [])
      && HeadNamesChain(q, DerivedHeads(s).image, SingleChain(p, heads.image), Resolve(s, IMAGE_STAGE) != [])
      && HeadNamesChain(q, DerivedHeads(s).context, SingleChain(p, ContextSource(heads)),
         Resolve(s, CONTEXT_STAGE) != [])
  {
    var s := Migrate(naming, entries, heads);
    ChainedAt(AddEntries(naming, entries), entries, heads);
    HeadAgain(naming, entries, s, heads.text, TEXT_STAGE);
    HeadAgain(naming, entries, s, heads.image, IMAGE_STAGE);
    HeadAgain(naming, entries, s, ContextSource(heads), CONTEXT_STAGE);
  }

  /** The legacy chains come back exactly when the heads are usable. */
  lemma StagesAgainIff(naming: Naming, entries: seq<Entry>, heads: Heads)
    requires Ready(entries)
    ensures var s, p, q := Migrate(naming, entries, heads), AddEntries(naming, entries),
      AddEntries(naming, Renamed(entries));
      (SingleChain(q, DerivedHeads(s).text) == SingleChain(p, heads.text)
       && SingleChain(q, DerivedHeads(s).image) == SingleChain(p, heads.image)
       && SingleChain(q, ContextSource(DerivedHeads(s))) == SingleChain(p, ContextSource(heads))) <==> HeadsUsable(s)
  {
    var s, p, q := Migrate(naming, entries, heads), AddEntries(naming, entries), AddEntries(naming, Renamed(entries));
    DerivedNames(naming, entries, heads);
    SharedChainAgrees(naming, entries, heads);
    HeadsUsableIs(naming, entries, heads);
    HeadsDecide(q, DerivedHeads(s), SingleChain(p, heads.text), SingleChain(p, heads.image),
      SingleChain(p, ContextSource(heads)),
                Resolve(s, TEXT_STAGE) != [], Resolve(s, IMAGE_STAGE) != [], Resolve(s, CONTEXT_STAGE) != []);
  }

  // ---------------------------------------------------------------- the condition on the entries

  /** The position of the entry with an id; the later one wins when an id repeats. */
  function EntryFor(es: seq<Entry>, id: string): (r: Option<nat>)
    ensures r.Some? ==> r.value < |es| && es[r.value].id == id
    ensures r == None <==> forall i | 0 <= i < |es| :: es[i].id != id
  {
    if es == [] then None
    else if es[|es| - 1].id == id then Some(|es| - 1)
    else EntryFor(es[..|es| - 1], id)
  }

  /** An entry a stage could call: it has what the stage needs, an endpoint and a model name. */
  predicate Callable(e: Entry, stage: Stage) {
    (stage.needsText ==> e.text) && (stage.needsImage ==> e.image) && Strip(e.baseUrl) != "" && Strip(e.model) != ""
  }

  /** The entry a head is bound to, if any, can serve the stage. */
  predicate HeadServes(entries: seq<Entry>, head: string, stage: Stage) {
    var id := BoundId(entries, head);
    id.Some? ==> EntryFor(Renamed(entries), id.value).Some?
                 && Callable(Renamed(entries)[EntryFor(Renamed(entries), id.value).value], stage)
  }

  /** What a caller can check before migrating: each named entry can serve its stage, and an unknown context head
      is not hiding a text head the next migration would fall back to. */
  predicate HeadsServe(entries: seq<Entry>, heads: Heads) {
    && HeadServes(entries, heads.text, STAGES[3]) && HeadServes(entries, heads.image, STAGES[4])
    && HeadServes(entries, ContextSource(heads), STAGES[1])
    && (BoundId(entries, ContextSource(heads)) == None ==> BoundId(entries, heads.text) == None)
  }

  lemma {:induction false} SamePosition(ms: seq<Model>, es: seq<Entry>, id: string)
    requires |ms| == |es| && forall i | 0 <= i < |ms| :: ms[i].id == es[i].id
    ensures ModelAt(ms, id) == EntryFor(es, id)
  {
    if ms != [] { SamePosition(ms[..|ms| - 1], es[..|es| - 1], id); }
  }

  /** What a migrated model is called with is its renamed entry. */
  lemma MigratedIsRouted(naming: Naming, entries: seq<Entry>, heads: Heads, stage: Stage, i: nat)
    requires Plain(entries) && i < |entries|
    ensures var s := Migrate(naming, entries, heads);
      && |s.models| == |entries| && s.models[i].id == Renamed(entries)[i].id && s.models[i].enabled
      && ProviderAt(s.providers, s.models[i].providerId).Some?
      && var p := s.providers[ProviderAt(s.providers, s.models[i].providerId).value];
        p.enabled && (StageSupports(stage, s.models[i]) && Configured(Bind(s.models[i], p)) <==>
          Callable(Renamed(entries)[i], stage))
  {
    var p := AddEntries(naming, entries);
    PlainIsKept(entries);
    EntriesFollow(naming, entries);
    ProviderIdsDistinct(naming, entries);
    ModelIdsAre(naming, entries);
    assert Follows(p.models[i], entries[i], p.byKey);
    ServedIsFound(p.providers, p.byKey[EndpointOf(entries[i])], EndpointOf(entries[i]));
  }

  lemma RoutedIff(naming: Naming, entries: seq<Entry>, heads: Heads, stage: Stage, id: string)
    requires Plain(entries)
    ensures Route(Migrate(naming, entries, heads), Some(stage), id).Some? <==>
            EntryFor(Renamed(entries), id).Some? &&
              Callable(Renamed(entries)[EntryFor(Renamed(entries), id).value], stage)
  {
    var s := Migrate(naming, entries, heads);
    PlainIsKept(entries);
    ModelIdsAre(naming, entries);
    SamePosition(s.models, Renamed(entries), id);
    if EntryFor(Renamed(entries), id).Some? {
      MigratedIsRouted(naming, entries, heads, stage, EntryFor(Renamed(entries), id).value);
    }
  }

  lemma StageUsableIff(naming: Naming, entries: seq<Entry>, heads: Heads, head: string, stage: Stage)
    requires Plain(entries) && StageAt(stage.key) == Some(stage)
    requires var s := Migrate(naming, entries, heads);
      ChainOf(s.stages, stage.key) == SingleChain(AddEntries(naming, entries), head)
    ensures Usable(Migrate(naming, entries, heads), stage.key) <==> HeadServes(entries, head, stage)
    ensures ChainOf(Migrate(naming, entries, heads).stages, stage.key) == ChainFor(BoundId(entries, head))
  {
    SingleIs(naming, entries, head);
    if BoundId(entries, head).Some? {
      RoutedIff(naming, entries, heads, stage, BoundId(entries, head).value);
      ResolveSingle(Migrate(naming, entries, heads), Some(stage), BoundId(entries, head).value);
    }
  }

  lemma HeadsServeIff(naming: Naming, entries: seq<Entry>, heads: Heads)
    requires Plain(entries)
    ensures HeadsUsable(Migrate(naming, entries, heads)) <==> HeadsServe(entries, heads)
  {
    var text, image, context := LegacyStages();
    ChainedAt(AddEntries(naming, entries), entries, heads);
    StageUsableIff(naming, entries, heads, heads.text, text);
    StageUsableIff(naming, entries, heads, heads.image, image);
    StageUsableIff(naming, entries, heads, ContextSource(heads), context);
  }

  /** The entry production calls is still the first of its kind, under the id it is bound to, once the ids are
      repaired. */
  predicate MimoStays(entries: seq<Entry>) {
    ChainFor(BoundId(Renamed(entries), MimoId(Renamed(entries)))) == ChainFor(BoundId(entries, MimoId(entries)))
  }

  lemma ChainedSameIff(p: Progress, a: seq<Entry>, x: Heads, q: Progress, b: seq<Entry>, y: Heads)
    ensures Chained(q, b, y) == Chained(p, a, x) <==>
      (SingleChain(q, y.text) == SingleChain(p, x.text) && SingleChain(q, y.image) == SingleChain(p, x.image)
       && SingleChain(q, ContextSource(y)) == SingleChain(p, ContextSource(x))
       && SingleChain(q, MimoId(b)) == SingleChain(p, MimoId(a)))
  {
    ChainedAt(p, a, x);
    ChainedAt(q, b, y);
    AuthoritativeAt(p, a, x);
    AuthoritativeAt(q, b, y);
  }

  lemma AuthoritativeAt(p: Progress, entries: seq<Entry>, heads: Heads)
    ensures ChainOf(Chained(p, entries, heads), "authoritative_recognition") == SingleChain(p, MimoId(entries))
  {
    assert "authoritative_recognition"[0] == 'a' && "context_resolution"[0] == 'c' && "strategy_alert"[0] == 's';
    assert "batch_text_recognition"[0] == 'b' && "batch_image_recognition"[0] == 'b';
  }

  lemma RenamedIsPlain(entries: seq<Entry>)
    requires Ready(entries)
    ensures Plain(Renamed(entries))
  {
    forall i | 0 <= i < |entries|
      ensures NormalEntry(Renamed(entries)[i]) == Renamed(entries)[i] && Renamed(entries)[i].id != ""
    {
      SlugsAreStripped(GivenIds(entries)[i]);
    }
  }

  /** Migrating the derived view always gives the same providers and models, and the same stages exactly when
      every named entry can serve its stage and the repair of ids leaves the mimo entry where it was. */
  lemma MigrateAgainIsSameIff(naming: Naming, entries: seq<Entry>, heads: Heads)
    requires Ready(entries)
    ensures var s := Migrate(naming, entries, heads);
      var again := Migrate(naming, View(s), DerivedHeads(s));
      && again.providers == s.providers && again.models == s.models
      && (again.stages == s.stages <==> HeadsServe(entries, heads) && MimoStays(entries))
  {
    var s := Migrate(naming, entries, heads);
    var p, q := AddEntries(naming, entries), AddEntries(naming, Renamed(entries));
    ViewOfMigration(naming, entries, heads);
    RenamedTables(naming, entries);
    RenamedIsPlain(entries);
    SingleIs(naming, entries, MimoId(entries));
    SingleIs(naming, Renamed(entries), MimoId(Renamed(entries)));
    ChainedSameIff(p, entries, heads, q, Renamed(entries), DerivedHeads(s));
    StagesAgainIff(naming, entries, heads);
    HeadsServeIff(naming, entries, heads);
  }

  // ---------------------------------------------------------------- where a second migration or an id fails

  function WithId(id: string): Entry { Entry(id, id, "", "", "", 60, true, true) }

  lemma WithoutEndpointIsNotRouted(s: Structure, stage: Option<Stage>, id: string)
    requires forall i | 0 <= i < |s.models| :: Strip(s.models[i].model) == ""
    ensures Route(s, stage, id) == None
  {
    var at := ModelAt(s.models, id);
  }

  lemma OneEntryChain(naming: Naming, e: Entry, heads: Heads)
    requires NormalEntry(e) == e && ValidSlug(e.id) && heads.text == e.id
    ensures ChainOf(Migrate(naming, [e], heads).stages, TEXT_STAGE) == [e.id]
    ensures var ms := Migrate(naming, [e], heads).models; |ms| == 1 && ms[0] == NewModel(e.id, ms[0].providerId, e)
  {
    var p := AddEntries(naming, [e]);
    PlainIsKept([e]);
    ModelIdsAre(naming, [e]);
    EntriesFollow(naming, [e]);
    assert Follows(p.models[0], [e][0], p.byKey) && [e][0].id == e.id;
    ChainedAt(p, [e], heads);
    SlugsAreStripped(e.id);
    assert p.bySource[e.id] == p.models[0].id == e.id;
  }

  lemma SlugIsReady(e: Entry)
    requires NormalEntry(e) == e && ValidSlug(e.id)
    ensures Ready([e])
  {
    assert GivenIds([e])[0] == GivenId(Sources([e])[..0], e.id);
  }

  /** An entry without an endpoint that is named for the text stage: the first migration binds it, its view
      names no head, and the second migration drops it. */
  lemma UnconfiguredHeadIsLost(naming: Naming)
    ensures var s := Migrate(naming, [WithId("a")], Heads("a", "", ""));
      var again := Migrate(naming, View(s), DerivedHeads(s));
      ChainOf(s.stages, TEXT_STAGE) == ["a"] && Resolve(s, TEXT_STAGE) == [] && again.stages != s.stages
  {
    var e, heads := WithId("a"), Heads("a", "", "");
    var s := Migrate(naming, [e], heads);
    assert NormalEntry(e) == e by { assert Strip("") == "" && DropSlashes("") == ""; }
    SlugIsReady(e);
    OneEntryChain(naming, e, heads);
    HeadsServeIff(naming, [e], heads);
    WithoutEndpointIsNotRouted(s, StageAt(TEXT_STAGE), "a");
    ResolveSingle(s, StageAt(TEXT_STAGE), "a");
    MigrateAgainIsSameIff(naming, [e], heads);
  }

  lemma {:induction false} LettersStay(s: string)
    requires Letters(s)
    ensures Dashed(s) == s
  {
    if s != "" {
      assert s == [s[0]] + s[1..];
      LettersStay(s[1..]);
    }
  }

  predicate NoDoubleDash(s: string) { forall i | 0 <= i < |s| - 1 :: !(s[i] == '-' && s[i + 1] == '-') }

  lemma {:induction false} SingleDashesStay(s: string)
    requires NoDoubleDash(s)
    ensures SingleDashes(s) == s
  {
    if s != "" {
      assert s == [s[0]] + s[1..];
      SingleDashesStay(s[1..]);
    }
  }

  lemma LeadingDashTrimmed(id: string)
    requires id != "" && !Edge(id[0]) && !Edge(id[|id| - 1])
    ensures Trim("-" + id, IsEdge()) == id
  {
    var edge := IsEdge();
    assert edge('-') && !edge(id[0]) && !edge(id[|id| - 1]);
    assert ("-" + id)[0] == '-' && ("-" + id)[1..] == id;
    assert TrimLeft(id, edge) == id && TrimLeft("-" + id, edge) == id && TrimRight(id, edge) == id;
  }

  /** A dash in front of an id is taken off by its repair. */
  lemma LeadingDashRepaired(id: string)
    requires Letters(id) && NoDoubleDash(id) && 1 <= |id| <= 64 && Alnum(id[0]) && Alnum(id[|id| - 1])
    requires Lower("-" + id) == "-" + id
    ensures Slugify("-" + id, "model") == id && !ValidSlug("-" + id)
  {
    var x := "-" + id;
    assert Letters(x) by { assert forall i | 0 < i < |x| :: x[i] == id[i - 1]; }
    assert Strip(x) == x by { StrippedIsFixed(x); }
    assert Dashed(x) == x by { LettersStay(x); }
    assert Trim(x, IsEdge()) == id by { LeadingDashTrimmed(id); }
    assert SingleDashes(id) == id by { SingleDashesStay(id); }
    assert !Alnum(x[0]);
  }

  lemma MimoText()
    ensures Letters(MIMO) && NoDoubleDash(MIMO) && |MIMO| == 9 && Lower("-" + MIMO) == "-" + MIMO && ValidSlug(MIMO)
  {
    assert Lower("-" + MIMO) == "-" + MIMO;
  }

  /** A list without a mimo entry, in which the repair of an id makes one: the authoritative stage is bound to
      nothing by the first migration and to that entry by the second. */
  lemma RepairMakesMimo(naming: Naming)
    ensures var es := [WithId("-" + MIMO)];
      Ready(es) && MimoId(es) == "" && MimoId(Renamed(es)) == MIMO && !MimoStays(es)
  {
    var x := "-" + MIMO;
    MimoText();
    LeadingDashRepaired(MIMO);
    StrippedIsFixed(x);
    var es := [WithId(x)];
    assert Sources(es) == [x] && Sources(es)[..0] == [] && TableOf([]) == map[];
    assert GivenIds(es)[0] == MIMO;
    assert Strip("") == "" && DropSlashes("") == "" && es[1..] == [];
    SlugsAreStripped(MIMO);
    assert Renamed(es)[0].id == MIMO;
  }

  /** A repaired id and a later entry that spells it out always share one model id. */
  lemma SpelledOutCollides(naming: Naming, x: string)
    requires Strip(x) == x && x != "" && !ValidSlug(x)
    ensures var es := [WithId(x), WithId(Slugify(x, "model"))];
      var ms := AddEntries(naming, es).models;
      |ms| == 2 && ms[0].id == ms[1].id && es[0].id != es[1].id
  {
    var y := Slugify(x, "model");
    SlugifyIsValid(x, "model");
    SlugsAreStripped(y);
    var es := [WithId(x), WithId(y)];
    AddEntriesSnoc(naming, [], WithId(x));
    AddEntriesSnoc(naming, [WithId(x)], WithId(y));
    assert es == [WithId(x)] + [WithId(y)] && [WithId(x)] == [] + [WithId(x)];
  }

  lemma OneValue(k: string, v: string)
    ensures map[k := v].Values == {v}
  {
    assert map[k := v][k] == v;
  }

  /** What adding an entry does to the models and to the table of ids. */
  lemma AddEntryId(naming: Naming, init: seq<Entry>, raw: Entry) returns (id: string)
    requires Strip(raw.id) != ""
    ensures var p, q := AddEntries(naming, init), AddEntries(naming, init + [raw]);
      && id == MigratedId(Strip(raw.id), p.bySource.Values) && q.bySource == p.bySource[Strip(raw.id) := id]
      && |q.models| == |p.models| + 1 && q.models[..|p.models|] == p.models && q.models[|p.models|].id == id
  {
    AddEntriesSnoc(naming, init, raw);
    id := MigratedId(Strip(raw.id), AddEntries(naming, init).bySource.Values);
  }

  lemma OverwrittenValue(table: map<string, string>, k: string, v: string)
    requires table.Keys <= {k}
    ensures table[k := v] == map[k := v] && table[k := v].Values == {v}
  {
    assert table[k := v] == map[k := v];
    OneValue(k, v);
  }

  lemma SuffixedDiffers(base: string, k: nat)
    ensures Suffixed(base, k) != base
  {
    assert |Suffixed(base, k)| > |base|;
  }

  lemma OneRepeat(naming: Naming, x: string)
    requires Strip(x) == x && x != "" && !ValidSlug(x)
    ensures var p := AddEntries(naming, [] + [WithId(x)]);
      p.bySource == map[x := Slugify(x, "model")] && |p.models| == 1 && p.models[0].id == Slugify(x, "model")
  {
    var first := AddEntryId(naming, [], WithId(x));
    assert AddEntries(naming, []) == START;
    OverwrittenValue(map[], x, first);
  }

  lemma TwoRepeats(naming: Naming, x: string)
    requires Strip(x) == x && x != "" && !ValidSlug(x)
    ensures var p := AddEntries(naming, [] + [WithId(x)] + [WithId(x)]);
      && p.bySource == map[x := Suffixed(Slugify(x, "model"), 2)] && |p.models| == 2
      && p.models[0].id == Slugify(x, "model") && p.models[1].id == Suffixed(Slugify(x, "model"), 2)
  {
    var base := Slugify(x, "model");
    OneRepeat(naming, x);
    OneValue(x, base);
    var second := AddEntryId(naming, [] + [WithId(x)], WithId(x));
    SuffixedDiffers(base, 2);
    OverwrittenValue(map[x := base], x, second);
  }

  /** The table of taken ids forgets the first repair of a repeated source id, so the third repeat gets
      the first one's id again. */
  lemma ThirdRepeatCollides(naming: Naming, x: string)
    requires Strip(x) == x && x != "" && !ValidSlug(x)
    ensures var ms := AddEntries(naming, [WithId(x), WithId(x), WithId(x)]).models;
      |ms| == 3 && ms[0].id == ms[2].id == Slugify(x, "model") && ms[1].id == Suffixed(Slugify(x, "model"), 2)
  {
    var e, base := WithId(x), Slugify(x, "model");
    TwoRepeats(naming, x);
    OneValue(x, Suffixed(base, 2));
    var third := AddEntryId(naming, [] + [e] + [e], e);
    SuffixedDiffers(base, 2);
    assert [] + [e] + [e] + [e] == [e, e, e];
  }
}
