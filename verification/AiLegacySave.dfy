/** Saving a configuration that carries only the v1 fields: the default models are merged in, one model is
    selected for each legacy stage, the list is migrated, and the chains on disk are kept where they can be. */
module AiLegacySave {
  import opened Options
  import opened Texts
  import opened AiConfig
  import opened AiConfigSave
  import opened AiPreserve
  import opened AiMigration

  /** The endpoint one v1 stage starts with. */
  datatype V1Provider = V1Provider(baseUrl: string, apiKey: string, model: string, timeout: int)

  /** The v1 fields of a configuration. */
  datatype V1Config = V1Config(entries: seq<Entry>, heads: Heads, text: V1Provider, image: V1Provider)

  const DEFAULTS: seq<Entry> := [
    Entry("deepseek-v4-flash", "DeepSeek V4 Flash", "https://api.deepseek.com", "", "deepseek-v4-flash", 60, true,
      false),
    Entry("glm-ocr", "GLM-OCR", "https://open.bigmodel.cn/api/paas/v4", "", "glm-ocr", 60, false, true),
    Entry(MIMO, "MiMo V2.5", "https://api.xiaomimimo.com/v1", "", MIMO, 60, true, true)]

  function ProviderOf(e: Entry): V1Provider { V1Provider(e.baseUrl, e.apiKey, e.model, e.timeout) }

  predicate HasEndpoint(p: V1Provider) { Strip(p.baseUrl) != "" && Strip(p.model) != "" }

  function NormalV1Provider(p: V1Provider): V1Provider {
    V1Provider(TrimUrl(p.baseUrl), Strip(p.apiKey), Strip(p.model), if p.timeout == 0 then 60 else p.timeout)
  }

  // ---------------------------------------------------------------- the merged model list

  /** One place of the ordered table that holds the list by its unstripped ids. */
  datatype Slot = Slot(key: string, entry: Entry)

  function SlotAt(table: seq<Slot>, key: string): (r: Option<nat>)
    ensures r.Some? ==> r.value < |table| && table[r.value].key == key
    ensures r == None <==> forall i | 0 <= i < |table| :: table[i].key != key
  {
    if table == [] then None
    else if table[|table| - 1].key == key then Some(|table| - 1)
    else SlotAt(table[..|table| - 1], key)
  }

  /** A known key keeps its place. */
  function Put(table: seq<Slot>, key: string, e: Entry): seq<Slot> {
    match SlotAt(table, key)
    case Some(i) => table[i := Slot(key, e)]
    case None => table + [Slot(key, e)]
  }

  function Slots(entries: seq<Entry>): seq<Slot> {
    if entries == [] then []
    else
      var last := entries[|entries| - 1];
      if Strip(last.id) == "" then Slots(entries[..|entries| - 1])
      else Put(Slots(entries[..|entries| - 1]), last.id, NormalEntry(last))
  }

  function Or(a: string, b: string): string { if a != "" then a else b }

  /** The v1 provider that speaks for a default model, if one names it. */
  function SpokenFor(d: Entry, text: V1Provider, image: V1Provider): Option<V1Provider> {
    if Strip(text.model) == d.model then Some(text)
    else if Strip(image.model) == d.model then Some(image)
    else None
  }

  function MergeDefault(d: Entry, existing: Option<Entry>, text: V1Provider, image: V1Provider): Entry {
    var m := if existing.Some? then existing.value else d;
    match SpokenFor(d, text, image)
    case None => NormalEntry(m)
    case Some(p) =>
      NormalEntry(Entry(d.id, Or(m.title, d.title), Or(p.baseUrl, Or(m.baseUrl, d.baseUrl)), Or(p.apiKey, m.apiKey),
                        Or(p.model, Or(m.model, d.model)),
                        if p.timeout != 0 then p.timeout else m.timeout, d.text, d.image))
  }

  function EntryAt(table: seq<Slot>, key: string): Option<Entry> {
    match SlotAt(table, key)
    case Some(i) => Some(table[i].entry)
    case None => None
  }

  function MergeOne(table: seq<Slot>, d: Entry, text: V1Provider, image: V1Provider): seq<Slot> {
    Put(table, d.id, MergeDefault(d, EntryAt(table, d.id), text, image))
  }

  function WithDefaults(table: seq<Slot>, defaults: seq<Entry>, text: V1Provider, image: V1Provider): seq<Slot>
    decreases |defaults|
  {
    if defaults == [] then table
    else WithDefaults(MergeOne(table, defaults[0], text, image), defaults[1..], text, image)
  }

  function Values(table: seq<Slot>): (r: seq<Entry>)
    ensures |r| == |table| && forall i | 0 <= i < |r| :: r[i] == table[i].entry
  {
    seq(|table|, i requires 0 <= i < |table| => table[i].entry)
  }

  function MergedTable(entries: seq<Entry>, text: V1Provider, image: V1Provider): seq<Slot> {
    WithDefaults(Slots(entries), DEFAULTS, text, image)
  }

  function MergedEntries(v: V1Config): seq<Entry> { Values(MergedTable(v.entries, v.text, v.image)) }

  // ---------------------------------------------------------------- the selected models

  datatype Need = NeedsText | NeedsImage

  predicate Capable(e: Entry, need: Need) {
    (if need.NeedsText? then e.text else e.image) && HasEndpoint(ProviderOf(e))
  }

  datatype Want = ById(id: string) | ByEndpoint(p: V1Provider) | First

  predicate Wanted(e: Entry, need: Need, want: Want) {
    Capable(e, need) &&
    match want
    case ById(id) => e.id == id
    case ByEndpoint(p) => e.model == Strip(p.model) && e.baseUrl == TrimUrl(p.baseUrl)
    case First => true
  }

  function FirstWanted(es: seq<Entry>, need: Need, want: Want): (r: Option<Entry>)
    ensures r.Some? ==> r.value in es && Wanted(r.value, need, want)
    ensures r == None <==> forall i | 0 <= i < |es| :: !Wanted(es[i], need, want)
  {
    if es == [] then None
    else if Wanted(es[0], need, want) then Some(es[0])
    else FirstWanted(es[1..], need, want)
  }

  /** The named model when it can serve; else the fallback endpoint's; else the first that can. */
  function Selected(es: seq<Entry>, need: Need, active: string, fallback: V1Provider): Option<Entry> {
    var named := FirstWanted(es, need, ById(active));
    var spare := if HasEndpoint(fallback) then FirstWanted(es, need, ByEndpoint(fallback)) else None;
    if named.Some? then named else if spare.Some? then spare else FirstWanted(es, need, First)
  }

  function IdOf(e: Option<Entry>): string { if e.Some? then e.value.id else "" }

  function SelectedText(v: V1Config): Option<Entry> { Selected(MergedEntries(v), NeedsText, v.heads.text, v.text) }

  function SelectedImage(v: V1Config): Option<Entry> { Selected(MergedEntries(v), NeedsImage, v.heads.image, v.image) }

  function SelectedContext(v: V1Config): Option<Entry> {
    Selected(MergedEntries(v), NeedsText, v.heads.context,
             if SelectedText(v).Some? then ProviderOf(SelectedText(v).value) else v.text)
  }

  function SelectedHeads(v: V1Config): Heads {
    Heads(IdOf(SelectedText(v)), IdOf(SelectedImage(v)), IdOf(SelectedContext(v)))
  }

  // ---------------------------------------------------------------- the save

  datatype Config = Config(structure: Structure, v1: V1Config)

  /** What the v1 fields alone say of the structure, before the chains on disk are looked at. */
  function Remade(naming: Naming, v: V1Config): Structure {
    Migrate(naming, MergedEntries(v), SelectedHeads(v))
  }

  function SelectedProvider(e: Option<Entry>, given: V1Provider): V1Provider {
    if e.Some? then ProviderOf(e.value) else NormalV1Provider(given)
  }

  /** `disk` holds the stages of the file that is about to be replaced. */
  function SaveV1(naming: Naming, infer: string -> bool, disk: Chains, v: V1Config): Config {
    var m := Remade(naming, v);
    Config(Normal(infer, m.(stages := Preserved(m.stages, disk, m.models))).0,
           V1Config(MergedEntries(v), SelectedHeads(v),
                    SelectedProvider(SelectedText(v), v.text), SelectedProvider(SelectedImage(v), v.image)))
  }

  // ---------------------------------------------------------------- the loops

  method KeyEntries(entries: seq<Entry>) returns (table: seq<Slot>)
    ensures table == Slots(entries)
  {
    table := [];
    var i := 0;
    while i < |entries|
      invariant 0 <= i <= |entries| && table == Slots(entries[..i])
    {
      assert entries[..i + 1][..i] == entries[..i];
      if Strip(entries[i].id) != "" {
        table := Put(table, entries[i].id, NormalEntry(entries[i]));
      }
      i := i + 1;
    }
    assert entries[..i] == entries;
  }

  method MergeDefaults(given: seq<Slot>, defaults: seq<Entry>, text: V1Provider, image: V1Provider)
    returns (table: seq<Slot>)
    ensures table == WithDefaults(given, defaults, text, image)
  {
    table := given;
    var i := 0;
    while i < |defaults|
      invariant 0 <= i <= |defaults|
      invariant WithDefaults(given, defaults, text, image) == WithDefaults(table, defaults[i..], text, image)
    {
      assert defaults[i..][1..] == defaults[i + 1..];
      table := MergeOne(table, defaults[i], text, image);
      i := i + 1;
    }
  }

  method NormalizeEntries(v: V1Config) returns (es: seq<Entry>)
    ensures es == MergedEntries(v)
  {
    var table := KeyEntries(v.entries);
    table := MergeDefaults(table, DEFAULTS, v.text, v.image);
    es := Values(table);
  }

  method FindWanted(es: seq<Entry>, need: Need, want: Want) returns (r: Option<Entry>)
    ensures r == FirstWanted(es, need, want)
  {
    r := None;
    var i := 0;
    while i < |es|
      invariant 0 <= i <= |es| && r == None && FirstWanted(es, need, want) == FirstWanted(es[i..], need, want)
    {
      if Wanted(es[i], need, want) {
        return Some(es[i]);
      }
      assert es[i..][1..] == es[i + 1..];
      i := i + 1;
    }
  }

  method SelectActive(es: seq<Entry>, need: Need, active: string, fallback: V1Provider) returns (r: Option<Entry>)
    ensures r == Selected(es, need, active, fallback)
  {
    r := FindWanted(es, need, ById(active));
    if r.Some? {
      return;
    }
    if HasEndpoint(fallback) {
      r := FindWanted(es, need, ByEndpoint(fallback));
      if r.Some? {
        return;
      }
    }
    r := FindWanted(es, need, First);
  }

  // ---------------------------------------------------------------- what the table keeps

  /** Every slot holds an entry whose id is the slot's key without the spaces around it. */
  predicate Keyed(table: seq<Slot>) {
    forall i | 0 <= i < |table| :: table[i].entry.id == Strip(table[i].key) != ""
  }

  lemma {:induction false} SlotsKeyed(entries: seq<Entry>)
    ensures Keyed(Slots(entries))
  {
    if entries != [] { SlotsKeyed(entries[..|entries| - 1]); }
  }

  predicate PlainIds(defaults: seq<Entry>) {
    forall i | 0 <= i < |defaults| :: Strip(defaults[i].id) == defaults[i].id != ""
  }

  lemma MergeOneKeyed(table: seq<Slot>, d: Entry, text: V1Provider, image: V1Provider)
    requires Keyed(table) && Strip(d.id) == d.id != ""
    ensures Keyed(MergeOne(table, d, text, image)) && Holds(MergeOne(table, d, text, image), d.id)
    ensures forall key | Holds(table, key) :: Holds(MergeOne(table, d, text, image), key)
  {
    var more := MergeOne(table, d, text, image);
    var at := SlotAt(table, d.id);
    if at.Some? {
      assert more[at.value].key == d.id;
    } else {
      assert more[|table|].key == d.id;
    }
    forall key | Holds(table, key) ensures Holds(more, key) {
      var i := SlotAt(table, key).value;
      assert more[i].key == key;
    }
  }

  predicate Holds(table: seq<Slot>, key: string) { SlotAt(table, key).Some? }

  /** Every default has a place in the table, and no place is lost. */
  lemma {:induction false} WithDefaultsKeyed(table: seq<Slot>, defaults: seq<Entry>, text: V1Provider,
      image: V1Provider)
    requires Keyed(table) && PlainIds(defaults)
    ensures var more := WithDefaults(table, defaults, text, image);
      && Keyed(more) && (forall i | 0 <= i < |defaults| :: Holds(more, defaults[i].id))
      && (forall key | Holds(table, key) :: Holds(more, key))
    decreases |defaults|
  {
    if defaults != [] {
      MergeOneKeyed(table, defaults[0], text, image);
      var next, more := MergeOne(table, defaults[0], text, image), WithDefaults(table, defaults, text, image);
      WithDefaultsKeyed(next, defaults[1..], text, image);
      forall i | 0 <= i < |defaults| ensures Holds(more, defaults[i].id) {
        if i > 0 { assert defaults[1..][i - 1] == defaults[i]; }
      }
    }
  }

  lemma DefaultIdsAreSlugs()
    ensures forall i | 0 <= i < |DEFAULTS| :: ValidSlug(DEFAULTS[i].id)
    ensures PlainIds(DEFAULTS)
  {
    forall i | 0 <= i < |DEFAULTS| ensures ValidSlug(DEFAULTS[i].id) && Strip(DEFAULTS[i].id) == DEFAULTS[i].id != "" {
      assert i == 0 || i == 1 || i == 2;
      SlugsAreStripped(DEFAULTS[i].id);
    }
  }

  /** The entries of a table: their ids carry no spaces, and every held plain key is one of them. */
  predicate HasId(es: seq<Entry>, id: string) { exists i :: 0 <= i < |es| && es[i].id == id }

  lemma ValuesOfKeyed(table: seq<Slot>, key: string)
    requires Keyed(table)
    ensures forall i | 0 <= i < |table| :: Strip(Values(table)[i].id) == Values(table)[i].id != ""
    ensures Holds(table, key) && Strip(key) == key ==> HasId(Values(table), key)
  {
    forall i | 0 <= i < |table| ensures Strip(table[i].entry.id) == table[i].entry.id { StripIdempotent(table[i].key); }
    if Holds(table, key) && Strip(key) == key {
      assert Values(table)[SlotAt(table, key).value].id == key;
    }
  }

  lemma MergedKeyed(v: V1Config, d: nat)
    requires d < |DEFAULTS|
    ensures Keyed(MergedTable(v.entries, v.text, v.image))
    ensures forall i | 0 <= i < |MergedEntries(v)| :: Strip(MergedEntries(v)[i].id) == MergedEntries(v)[i].id != ""
    ensures HasId(MergedEntries(v), DEFAULTS[d].id)
  {
    DefaultIdsAreSlugs();
    SlotsKeyed(v.entries);
    WithDefaultsKeyed(Slots(v.entries), DEFAULTS, v.text, v.image);
    ValuesOfKeyed(MergedTable(v.entries, v.text, v.image), DEFAULTS[d].id);
  }
}
