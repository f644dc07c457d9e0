/** What a save does step by step, said of what it is given alone: which heads are promoted and where to,
    which chain on disk is kept, how the default models are merged in, and which entry is selected. */
module AiLegacyAnswers {
  import opened Options
  import opened Texts
  import opened AiConfig
  import opened AiConfigSave
  import opened AiPreserve
  import opened AiMigration
  import opened AiLegacySave
  import opened AiResolve
  import opened AiNormal
  import opened AiMigrationAnswers

  // ---------------------------------------------------------------- promoted heads

  ghost predicate StageKey(key: string) {
    key in {"authoritative_recognition", "context_resolution", "strategy_alert", "batch_text_recognition",
            "batch_image_recognition"}
  }

  /** The model an id means can serve the stage. */
  ghost predicate FitsStage(key: string, ms: seq<Model>, id: string) {
    StageKey(key) && exists i: nat :: Means(ms, id, i) && CanServeStage(key, ms[i].text, ms[i].image)
  }

  /** A chain without one id, in its order. */
  ghost function Others(chain: seq<string>, id: string): seq<string> {
    if chain == [] then [] else (if chain[0] == id then [] else [chain[0]]) + Others(chain[1..], id)
  }

  lemma {:induction false} OthersSnoc(chain: seq<string>, last: string, id: string)
    ensures Others(chain + [last], id) == Others(chain, id) + if last == id then [] else [last]
  {
    if chain == [] {
      assert chain + [last] == [last] && [last][1..] == [];
    } else {
      assert (chain + [last])[1..] == chain[1..] + [last];
      OthersSnoc(chain[1..], last, id);
    }
  }

  lemma {:induction false} WithoutIsOthers(chain: seq<string>, id: string)
    ensures Without(chain, id) == Others(chain, id)
  {
    if chain != [] {
      var init, last := chain[..|chain| - 1], chain[|chain| - 1];
      WithoutIsOthers(init, id);
      OthersSnoc(init, last, id);
      assert chain == init + [last];
    }
  }

  /** What becomes of a stage's chain under a v1 head: the head in front and the others behind it in their
      order, when the head names a model that fits; else nothing. */
  ghost predicate PromotedTo(key: string, ms: seq<Model>, head: string, chain: seq<string>, after: seq<string>) {
    if head != "" && FitsStage(key, ms, head) then
      if chain != [] && chain[0] == head then after == chain else after == [head] + Others(chain, head)
    else after == chain
  }

  lemma FitsStageIff(key: string, ms: seq<Model>, id: string)
    ensures FitsStage(key, ms, id) <==>
            ModelAt(ms, id).Some? && StageAt(key).Some? && StageSupports(StageAt(key).value, ms[ModelAt(ms, id).value])
  {
    FiveStages();
    ModelAtMeans(ms, id);
    forall i: nat | Means(ms, id, i) ensures ModelAt(ms, id) == Some(i) { LastModel(ms, i); }
    if ModelAt(ms, id).Some? { StageNeeds(key, ms[ModelAt(ms, id).value]); }
    StageKeyIff(key);
  }

  lemma StageKeyIff(key: string)
    ensures StageKey(key) <==> StageAt(key).Some?
  {
    FiveStages();
    if StageKey(key) {
      var i := if key == STAGES[0].key then 0 else if key == STAGES[1].key then 1 else if key == STAGES[2].key then 2
               else if key == STAGES[3].key then 3 else 4;
      assert STAGES[i].key == key;
    }
  }

  lemma PromoteIs(stages: Chains, ms: seq<Model>, key: string, raw: string)
    ensures var after := Promote(stages, ms, key, raw);
      && PromotedTo(key, ms, Strip(raw), ChainOf(stages, key), ChainOf(after, key))
      && (forall other | other != key :: ChainOf(after, other) == ChainOf(stages, other))
      && stages.Keys <= after.Keys <= stages.Keys + {key}
  {
    FitsStageIff(key, ms, Strip(raw));
    WithoutIsOthers(ChainOf(stages, key), Strip(raw));
  }

  /** The three v1 heads, each promoted in the chain of its own stage; every other chain stays. */
  lemma HeadsArePromoted(stages: Chains, ms: seq<Model>, heads: Heads)
    ensures var after := PromoteLegacyHeads(stages, ms, heads);
      && PromotedTo("batch_text_recognition", ms, Strip(heads.text), ChainOf(stages, "batch_text_recognition"),
                    ChainOf(after, "batch_text_recognition"))
      && PromotedTo("batch_image_recognition", ms, Strip(heads.image), ChainOf(stages, "batch_image_recognition"),
                    ChainOf(after, "batch_image_recognition"))
      && PromotedTo("context_resolution", ms, Strip(heads.context), ChainOf(stages, "context_resolution"),
                    ChainOf(after, "context_resolution"))
      && (forall key | key !in {"batch_text_recognition", "batch_image_recognition", "context_resolution"} ::
            ChainOf(after, key) == ChainOf(stages, key))
  {
    StageNamesDiffer();
    var first := Promote(stages, ms, TEXT_STAGE, heads.text);
    var second := Promote(first, ms, IMAGE_STAGE, heads.image);
    PromoteIs(stages, ms, TEXT_STAGE, heads.text);
    PromoteIs(first, ms, IMAGE_STAGE, heads.image);
    PromoteIs(second, ms, CONTEXT_STAGE, heads.context);
  }

  // ---------------------------------------------------------------- chains on disk

  /** The members of a chain that are still models, in their order. */
  ghost function StillModels(chain: seq<string>, ms: seq<Model>): seq<string> {
    if chain == [] then []
    else (if IsAModel(ms, chain[0]) then [chain[0]] else []) + StillModels(chain[1..], ms)
  }

  lemma {:induction false} StillModelsSnoc(chain: seq<string>, last: string, ms: seq<Model>)
    ensures StillModels(chain + [last], ms) == StillModels(chain, ms) + if IsAModel(ms, last) then [last] else []
  {
    if chain == [] {
      assert chain + [last] == [last] && [last][1..] == [];
    } else {
      assert (chain + [last])[1..] == chain[1..] + [last];
      StillModelsSnoc(chain[1..], last, ms);
    }
  }

  lemma {:induction false} KnownAreStillModels(chain: seq<string>, ms: seq<Model>)
    ensures Known(chain, ms) == StillModels(chain, ms)
  {
    if chain != [] {
      var init, last := chain[..|chain| - 1], chain[|chain| - 1];
      KnownAreStillModels(init, ms);
      StillModelsSnoc(init, last, ms);
      assert chain == init + [last];
    }
  }

  /** A stage keeps the chain on disk when nothing was rebuilt for it, or when that chain starts with the model
      rebuilt and goes on behind it; it keeps the rebuilt one otherwise. */
  lemma PreservedIs(stages: Chains, disk: Chains, ms: seq<Model>, key: string)
    requires key in stages
    ensures var known, kept := StillModels(if key in disk then disk[key] else [], ms), Preserved(stages, disk, ms)[key];
      && (known != [] && stages[key] == [] ==> kept == known)
      && (known != [] && stages[key] != [] && known[0] == stages[key][0] && |known| > |stages[key]| ==> kept == known)
      && (known == [] || (stages[key] != [] && (known[0] != stages[key][0] || |known| <= |stages[key]|)) ==>
            kept == stages[key])
  {
    KnownAreStillModels(ChainOf(disk, key), ms);
  }

  // ---------------------------------------------------------------- the selected models

  ghost predicate Usable(p: V1Provider) { NonBlank(p.baseUrl) && NonBlank(p.model) }

  /** An entry that has the capability, an endpoint and a model name. */
  ghost predicate Can(e: Entry, need: Need) {
    (if need == NeedsText then e.text else e.image) && NonBlank(e.baseUrl) && NonBlank(e.model)
  }

  ghost predicate IsFor(e: Entry, want: Want) {
    match want
    case ById(id) => e.id == id
    case ByEndpoint(p) => e.model == Strip(p.model) && e.baseUrl == TrimUrl(p.baseUrl)
    case First => true
  }

  /** The first entry of the list that can serve and is the one asked for. */
  ghost predicate FirstAt(es: seq<Entry>, need: Need, want: Want, i: nat) {
    && i < |es| && Can(es[i], need) && IsFor(es[i], want)
    && forall j | 0 <= j < i :: !(Can(es[j], need) && IsFor(es[j], want))
  }

  ghost predicate NoneAt(es: seq<Entry>, need: Need, want: Want) {
    forall j | 0 <= j < |es| :: !(Can(es[j], need) && IsFor(es[j], want))
  }

  ghost predicate IsFirst(es: seq<Entry>, need: Need, want: Want, e: Option<Entry>) {
    if e.Some? then exists i: nat :: FirstAt(es, need, want, i) && es[i] == e.value else NoneAt(es, need, want)
  }

  lemma WantedIff(e: Entry, need: Need, want: Want)
    ensures Wanted(e, need, want) <==> Can(e, need) && IsFor(e, want)
  {
    StripIsEmptyIff(e.baseUrl);
    StripIsEmptyIff(e.model);
  }

  lemma {:induction false} FirstWantedIs(es: seq<Entry>, need: Need, want: Want)
    ensures IsFirst(es, need, want, FirstWanted(es, need, want))
  {
    if es != [] {
      var rest := es[1..];
      WantedIff(es[0], need, want);
      assert forall j | 0 < j < |es| :: es[j] == rest[j - 1];
      if Wanted(es[0], need, want) {
        assert FirstAt(es, need, want, 0);
      } else {
        FirstWantedIs(rest, need, want);
        if FirstWanted(rest, need, want).Some? {
          var i: nat :| FirstAt(rest, need, want, i) && rest[i] == FirstWanted(rest, need, want).value;
          assert FirstAt(es, need, want, i + 1);
        }
      }
    }
  }

  /** The named entry if it can serve; else the first on the fallback's endpoint, if the fallback has one and
      some entry there can; else the first that can. */
  lemma SelectedExactly(es: seq<Entry>, need: Need, active: string, fallback: V1Provider)
    ensures var e := Selected(es, need, active, fallback);
      if !NoneAt(es, need, ById(active)) then IsFirst(es, need, ById(active), e)
      else if Usable(fallback) && !NoneAt(es, need, ByEndpoint(fallback)) then
        IsFirst(es, need, ByEndpoint(fallback), e)
      else IsFirst(es, need, First, e)
  {
    FirstWantedIs(es, need, ById(active));
    FirstWantedIs(es, need, ByEndpoint(fallback));
    FirstWantedIs(es, need, First);
    StripIsEmptyIff(fallback.baseUrl);
    StripIsEmptyIff(fallback.model);
  }

  // ---------------------------------------------------------------- the merged list

  /** The keys of the table, in order. */
  ghost function KeysOf(table: seq<Slot>): seq<string> {
    seq(|table|, i requires 0 <= i < |table| => table[i].key)
  }

  /** Each key once, in the order of first mention. */
  ghost function Firsts(keys: seq<string>): seq<string> {
    if keys == [] then []
    else
      var init, last := Firsts(keys[..|keys| - 1]), keys[|keys| - 1];
      if last in init then init else init + [last]
  }

  /** The ids of the entries that have one, as they are written. */
  ghost function NamedIds(entries: seq<Entry>): seq<string> {
    if entries == [] then []
    else
      var last := entries[|entries| - 1];
      NamedIds(entries[..|entries| - 1]) + if Strip(last.id) == "" then [] else [last.id]
  }

  /** The last entry written under an id. */
  ghost function LastNamed(entries: seq<Entry>, id: string): Option<Entry> {
    if entries == [] then None
    else if entries[|entries| - 1].id == id then Some(entries[|entries| - 1])
    else LastNamed(entries[..|entries| - 1], id)
  }

  lemma FirstsSnoc(keys: seq<string>, key: string)
    ensures Firsts(keys + [key]) == if key in Firsts(keys) then Firsts(keys) else Firsts(keys) + [key]
  {
    assert (keys + [key])[..|keys|] == keys;
  }

  ghost predicate DistinctSlots(table: seq<Slot>) {
    forall i, j | 0 <= i < j < |table| :: table[i].key != table[j].key
  }

  lemma PutKeys(table: seq<Slot>, key: string, e: Entry)
    requires DistinctSlots(table)
    ensures DistinctSlots(Put(table, key, e))
    ensures KeysOf(Put(table, key, e)) == if key in KeysOf(table) then KeysOf(table) else KeysOf(table) + [key]
  {
    if SlotAt(table, key).Some? {
      assert KeysOf(table)[SlotAt(table, key).value] == key;
    }
  }

  lemma {:induction false} SlotIsOnly(table: seq<Slot>, i: nat)
    requires DistinctSlots(table) && i < |table|
    ensures SlotAt(table, table[i].key) == Some(i)
  {
    var at := SlotAt(table, table[i].key).value;
    assert !(at < i) && !(i < at);
  }

  lemma PutEntry(table: seq<Slot>, key: string, e: Entry, other: string)
    requires DistinctSlots(table)
    ensures EntryAt(Put(table, key, e), other) == if other == key then Some(e) else EntryAt(table, other)
  {
    var more, at := Put(table, key, e), SlotAt(table, other);
    PutKeys(table, key, e);
    if other == key {
      SlotIsOnly(more, if SlotAt(table, key).Some? then SlotAt(table, key).value else |table|);
    } else if at.Some? {
      SlotIsOnly(more, at.value);
    }
  }

  /** The table of a list: its named ids in order of first mention, each with its last entry, tidied. */
  lemma {:induction false} SlotsAre(entries: seq<Entry>, key: string)
    ensures DistinctSlots(Slots(entries)) && KeysOf(Slots(entries)) == Firsts(NamedIds(entries))
    ensures Strip(key) != "" ==>
              match LastNamed(entries, key)
              case None => EntryAt(Slots(entries), key) == None
              case Some(raw) => EntryAt(Slots(entries), key).Some? && Tidied(raw, EntryAt(Slots(entries), key).value)
  {
    if entries != [] {
      var init, last := entries[..|entries| - 1], entries[|entries| - 1];
      SlotsAre(init, key);
      EntryIsTidied(last, NormalEntry(last));
      if Strip(last.id) == "" {
        assert NamedIds(init) + [] == NamedIds(init);
      } else {
        FirstsSnoc(NamedIds(init), last.id);
        PutKeys(Slots(init), last.id, NormalEntry(last));
        PutEntry(Slots(init), last.id, NormalEntry(last), key);
      }
    }
  }

  /** The v1 provider that speaks for a default model: the text one if it names its model, else the image one. */
  ghost predicate SpeaksFor(d: Entry, text: V1Provider, image: V1Provider, p: Option<V1Provider>) {
    if Strip(text.model) == d.model then p == Some(text)
    else if Strip(image.model) == d.model then p == Some(image)
    else p == None
  }

  /** The text of whichever comes first and is not empty. */
  ghost function FirstOf(a: string, b: string): string { if a == "" then b else a }

  /** A default model merged with the entry of its id, if the list has one: a provider that speaks for it gives
      endpoint, key, model name and timeout where it has them, and the capabilities are the default's own. */
  ghost predicate MergedAs(d: Entry, existing: Option<Entry>, p: Option<V1Provider>, e: Entry) {
    var m := if existing.Some? then existing.value else d;
    match p
    case None => Tidied(m, e)
    case Some(given) =>
      Tidied(Entry(d.id, FirstOf(m.title, d.title), FirstOf(given.baseUrl, FirstOf(m.baseUrl, d.baseUrl)),
               FirstOf(given.apiKey, m.apiKey), FirstOf(given.model, FirstOf(m.model, d.model)),
               if given.timeout == 0 then m.timeout else given.timeout, d.text, d.image), e)
  }

  lemma MergeIs(d: Entry, existing: Option<Entry>, text: V1Provider, image: V1Provider)
    ensures SpeaksFor(d, text, image, SpokenFor(d, text, image))
    ensures MergedAs(d, existing, SpokenFor(d, text, image), MergeDefault(d, existing, text, image))
  {
    var m := if existing.Some? then existing.value else d;
    EntryIsTidied(m, NormalEntry(m));
  }

  lemma {:induction false} DefaultsAdd(table: seq<Slot>, defaults: seq<Entry>, text: V1Provider, image: V1Provider,
                                       names: seq<string>)
    requires DistinctSlots(table) && KeysOf(table) == Firsts(names)
    ensures var more := WithDefaults(table, defaults, text, image);
      DistinctSlots(more) && KeysOf(more) == Firsts(names + IdsOf(defaults))
    decreases |defaults|
  {
    if defaults == [] {
      assert names + IdsOf(defaults) == names;
    } else {
      MergeAdds(table, defaults[0], text, image, names);
      IdsCons(names, defaults);
      DefaultsAdd(MergeOne(table, defaults[0], text, image), defaults[1..], text, image, names + [defaults[0].id]);
    }
  }

  lemma MergeAdds(table: seq<Slot>, d: Entry, text: V1Provider, image: V1Provider, names: seq<string>)
    requires DistinctSlots(table) && KeysOf(table) == Firsts(names)
    ensures DistinctSlots(MergeOne(table, d, text, image))
    ensures KeysOf(MergeOne(table, d, text, image)) == Firsts(names + [d.id])
  {
    PutKeys(table, d.id, MergeDefault(d, EntryAt(table, d.id), text, image));
    FirstsSnoc(names, d.id);
  }

  lemma IdsCons(names: seq<string>, entries: seq<Entry>)
    requires entries != []
    ensures names + IdsOf(entries) == (names + [entries[0].id]) + IdsOf(entries[1..])
  {
  }

  ghost function IdsOf(entries: seq<Entry>): seq<string> {
    seq(|entries|, i requires 0 <= i < |entries| => entries[i].id)
  }

  /** A key that is no default's keeps its entry; a default's gets the merge with what was there. */
  lemma {:induction false} DefaultsMerge(table: seq<Slot>, defaults: seq<Entry>, text: V1Provider, image: V1Provider,
                                         key: string)
    requires DistinctSlots(table)
    requires forall i, j | 0 <= i < j < |defaults| :: defaults[i].id != defaults[j].id
    ensures var more := WithDefaults(table, defaults, text, image);
      && ((forall d | d in defaults :: d.id != key) ==> EntryAt(more, key) == EntryAt(table, key))
      && (forall d | d in defaults && d.id == key ::
            EntryAt(more, key) == Some(MergeDefault(d, EntryAt(table, key), text, image)))
    decreases |defaults|
  {
    if defaults != [] {
      var d, rest := defaults[0], defaults[1..];
      var next := MergeOne(table, d, text, image);
      assert defaults == [d] + rest;
      PutKeys(table, d.id, MergeDefault(d, EntryAt(table, d.id), text, image));
      PutEntry(table, d.id, MergeDefault(d, EntryAt(table, d.id), text, image), key);
      DefaultsMerge(next, rest, text, image, key);
      if d.id == key {
        forall x | x in rest ensures x.id != key {
          var i :| 0 <= i < |rest| && rest[i] == x;
          assert defaults[i + 1] == x;
        }
      }
    }
  }

  /** The three models every list is given. */
  ghost function ThreeDefaults(): seq<Entry> {
    [Entry("deepseek-v4-flash", "DeepSeek V4 Flash", "https://api.deepseek.com", "", "deepseek-v4-flash", 60, true,
       false),
     Entry("glm-ocr", "GLM-OCR", "https://open.bigmodel.cn/api/paas/v4", "", "glm-ocr", 60, false, true),
     Entry("mimo-v2.5", "MiMo V2.5", "https://api.xiaomimimo.com/v1", "", "mimo-v2.5", 60, true, true)]
  }

  lemma DefaultsAreThree()
    ensures DEFAULTS == ThreeDefaults()
    ensures forall i, j | 0 <= i < j < |DEFAULTS| :: DEFAULTS[i].id != DEFAULTS[j].id
  {
    assert |"deepseek-v4-flash"| == 17 && |"glm-ocr"| == 7 && |"mimo-v2.5"| == 9;
  }

  /** The entry the merged list holds for a key: a default merged with what was written last under its id, and
      for any other id what was written last, tidied. */
  ghost predicate MergedHolds(v: V1Config, defaults: seq<Entry>, key: string, e: Option<Entry>) {
    if exists d :: d in defaults && d.id == key then
      e.Some? && exists d, p, existing :: MergedFrom(v, defaults, key, e.value, d, p, existing)
    else IsLastNamed(v.entries, key, e)
  }

  ghost predicate MergedFrom(v: V1Config, defaults: seq<Entry>, key: string, e: Entry, d: Entry, p: Option<V1Provider>,
                             existing: Option<Entry>) {
    && d in defaults && d.id == key && SpeaksFor(d, v.text, v.image, p) && MergedAs(d, existing, p, e)
    && IsLastNamed(v.entries, key, existing)
  }

  ghost predicate IsLastNamed(entries: seq<Entry>, key: string, e: Option<Entry>) {
    match LastNamed(entries, key)
    case None => e == None
    case Some(raw) => e.Some? && Tidied(raw, e.value)
  }

  lemma MergedWith(v: V1Config, defaults: seq<Entry>, key: string)
    requires Strip(key) != "" && forall i, j | 0 <= i < j < |defaults| :: defaults[i].id != defaults[j].id
    ensures var table := WithDefaults(Slots(v.entries), defaults, v.text, v.image);
      && DistinctSlots(table) && KeysOf(table) == Firsts(NamedIds(v.entries) + IdsOf(defaults))
      && MergedHolds(v, defaults, key, EntryAt(table, key))
  {
    SlotsAre(v.entries, key);
    DefaultsAdd(Slots(v.entries), defaults, v.text, v.image, NamedIds(v.entries));
    DefaultsMerge(Slots(v.entries), defaults, v.text, v.image, key);
    var existing := EntryAt(Slots(v.entries), key);
    if d :| d in defaults && d.id == key {
      MergeIs(d, existing, v.text, v.image);
      assert MergedFrom(v, defaults, key, MergeDefault(d, existing, v.text, v.image), d,
                        SpokenFor(d, v.text, v.image), existing);
    }
  }

  /** The merged list: the named ids in order of first mention, then the defaults that are missing, each once;
      and what stands under each of them. */
  lemma MergedExactly(v: V1Config, key: string)
    requires Strip(key) != ""
    ensures var table := MergedTable(v.entries, v.text, v.image);
      && DistinctSlots(table) && KeysOf(table) == Firsts(NamedIds(v.entries) + IdsOf(ThreeDefaults()))
      && MergedHolds(v, ThreeDefaults(), key, EntryAt(table, key))
      && MergedEntries(v) == Values(table)
  {
    DefaultsAreThree();
    MergedWith(v, DEFAULTS, key);
  }

  // ---------------------------------------------------------------- the save

  /** What a v1-shaped save leaves in the v1 fields: the merged list, the ids of the three selected entries, and
      for text and image the selected entry's endpoint, or the given one tidied; the context falls back to the
      text model's endpoint. */
  lemma SavedV1Is(naming: Naming, infer: string -> bool, disk: Chains, v: V1Config)
    ensures var saved, es := SaveV1(naming, infer, disk, v).v1, MergedEntries(v);
      var text := Selected(es, NeedsText, v.heads.text, v.text);
      var image := Selected(es, NeedsImage, v.heads.image, v.image);
      var spare := if text.Some? then EndpointFrom(text.value) else v.text;
      var context := Selected(es, NeedsText, v.heads.context, spare);
      && saved.entries == es
      && saved.heads.text == (if text.Some? then text.value.id else "")
      && saved.heads.image == (if image.Some? then image.value.id else "")
      && saved.heads.context == (if context.Some? then context.value.id else "")
      && saved.text == (if text.Some? then EndpointFrom(text.value) else TidyProvider(v.text))
      && saved.image == (if image.Some? then EndpointFrom(image.value) else TidyProvider(v.image))
  {
  }

  ghost function EndpointFrom(e: Entry): V1Provider { V1Provider(e.baseUrl, e.apiKey, e.model, e.timeout) }

  ghost function TidyProvider(p: V1Provider): V1Provider {
    V1Provider(TrimUrl(p.baseUrl), Strip(p.apiKey), Strip(p.model), if p.timeout == 0 then 60 else p.timeout)
  }
}
