/** Migrating the flat v1 model list into providers, models and stage chains, and the v1 view
    derived back from the result. */
module AiMigration {
  import opened Options
  import opened Texts
  import opened AiConfig
  import opened AiConfigSave
  import opened FreshNames

  /** One entry of the v1 list. */
  datatype Entry = Entry(
    id: string, title: string, baseUrl: string, apiKey: string, model: string, timeout: int, text: bool, image: bool)

  datatype Endpoint = Endpoint(baseUrl: string, apiKey: string, timeout: int)

  /** Well-known hosts get a readable provider id. */
  const PROVIDER_ID_BY_HOST: map<string, string> :=
    map["api.deepseek.com" := "deepseek", "open.bigmodel.cn" := "zhipu", "api.xiaomimimo.com" := "mimo"]

  /** How the host is read off a base URL, and how a provider id is displayed. */
  datatype Naming = Naming(host: string -> string, title: string -> string) {
    /** The provider id of a base URL before any suffix. */
    function Base(url: string): string {
      if host(url) in PROVIDER_ID_BY_HOST then PROVIDER_ID_BY_HOST[host(url)]
      else if host(url) == "" then "custom" else Slugify(host(url), "custom")
    }
  }

  const MIMO := "mimo-v2.5"

  function NormalEntry(e: Entry): Entry {
    var id := Strip(e.id);
    Entry(id, if Strip(e.title) == "" then id else Strip(e.title), TrimUrl(e.baseUrl), Strip(e.apiKey), Strip(e.model),
          if e.timeout == 0 then 60 else e.timeout, e.text, e.image)
  }

  function EndpointOf(e: Entry): Endpoint { Endpoint(e.baseUrl, e.apiKey, e.timeout) }

  function MigratedId(source: string, taken: set<string>): string {
    if ValidSlug(source) then source else FreshId(Slugify(source, "model"), taken)
  }

  /** What the loop over the entries has built so far. */
  datatype Progress = Progress(
    providers: seq<Provider>, models: seq<Model>, bySource: map<string, string>, byKey: map<Endpoint, string>)

  const START := Progress([], [], map[], map[])

  function ProviderIdFor(naming: Naming, p: Progress, key: Endpoint): string {
    if key in p.byKey then p.byKey[key] else FreshId(naming.Base(key.baseUrl), p.byKey.Values)
  }

  function NewProvider(naming: Naming, id: string, key: Endpoint): Provider {
    Provider(id, naming.title(id), key.baseUrl, key.apiKey, key.timeout, true, None)
  }

  function NewModel(id: string, providerId: string, e: Entry): Model {
    Model(id, providerId, e.model, if e.title == "" then e.id else e.title, e.text, e.image, true)
  }

  function AddEntry(naming: Naming, p: Progress, raw: Entry): Progress {
    var e := NormalEntry(raw);
    if e.id == "" then p
    else
      var id := MigratedId(e.id, p.bySource.Values);
      var key := EndpointOf(e);
      var pid := ProviderIdFor(naming, p, key);
      Progress(if key in p.byKey then p.providers else p.providers + [NewProvider(naming, pid, key)],
               p.models + [NewModel(id, pid, e)],
               p.bySource[e.id := id],
               p.byKey[key := pid])
  }

  function AddEntries(naming: Naming, entries: seq<Entry>): Progress {
    if entries == [] then START
    else AddEntry(naming, AddEntries(naming, entries[..|entries| - 1]), entries[|entries| - 1])
  }

  /** The v1 ids that name one model for each legacy stage. */
  function SingleChain(p: Progress, source: string): seq<string> {
    var key := Strip(source);
    if key in p.bySource && p.bySource[key] != "" && ModelAt(p.models, p.bySource[key]).Some?
    then [p.bySource[key]] else []
  }

  /** The entry production calls: the first whose id or model name is the mimo model. */
  function MimoId(entries: seq<Entry>): string {
    if entries == [] then ""
    else if entries[0].id == MIMO || entries[0].model == MIMO then Strip(entries[0].id)
    else MimoId(entries[1..])
  }

  function ContextSource(heads: Heads): string {
    if Strip(heads.context) == "" then Strip(heads.text) else Strip(heads.context)
  }

  function Chained(p: Progress, entries: seq<Entry>, heads: Heads): Chains {
    map["authoritative_recognition" := SingleChain(p, MimoId(entries)),
        "context_resolution" := SingleChain(p, ContextSource(heads)),
        "strategy_alert" := [],
        "batch_text_recognition" := SingleChain(p, heads.text),
        "batch_image_recognition" := SingleChain(p, heads.image)]
  }

  function Migrate(naming: Naming, entries: seq<Entry>, heads: Heads): Structure {
    var p := AddEntries(naming, entries);
    Structure(p.providers, p.models, Chained(p, entries, heads))
  }

  // ---------------------------------------------------------------- the loops

  method FindMimo(entries: seq<Entry>) returns (id: string)
    ensures id == MimoId(entries)
  {
    id := "";
    var i := 0;
    while i < |entries|
      invariant 0 <= i <= |entries|
      invariant id == "" && MimoId(entries) == MimoId(entries[i..])
    {
      if entries[i].id == MIMO || entries[i].model == MIMO {
        id := Strip(entries[i].id);
        return;
      }
      assert entries[i..][1..] == entries[i + 1..];
      i := i + 1;
    }
  }

  /** One pass of the loop below. */
  method MigrateEntry(naming: Naming, p: Progress, raw: Entry) returns (q: Progress)
    ensures q == AddEntry(naming, p, raw)
  {
    q := p;
    var e := NormalEntry(raw);
    if e.id == "" {
      return;
    }
    var id, key := MigratedId(e.id, p.bySource.Values), EndpointOf(e);
    var pid: string;
    if key in p.byKey {
      pid := p.byKey[key];
      assert p.byKey[key := pid] == p.byKey;
    } else {
      pid := FreshId(naming.Base(e.baseUrl), p.byKey.Values);
      q := q.(byKey := p.byKey[key := pid], providers := p.providers + [NewProvider(naming, pid, key)]);
    }
    q := q.(bySource := p.bySource[e.id := id], models := p.models + [NewModel(id, pid, e)]);
  }

  method MigrateEntries(naming: Naming, entries: seq<Entry>) returns (p: Progress)
    ensures p == AddEntries(naming, entries)
  {
    p := START;
    var i := 0;
    while i < |entries|
      invariant 0 <= i <= |entries|
      invariant p == AddEntries(naming, entries[..i])
    {
      assert entries[..i + 1][..i] == entries[..i];
      p := MigrateEntry(naming, p, entries[i]);
      i := i + 1;
    }
    assert entries[..i] == entries;
  }

  method MigrateConfig(naming: Naming, entries: seq<Entry>, heads: Heads) returns (s: Structure)
    ensures s == Migrate(naming, entries, heads)
  {
    var p := MigrateEntries(naming, entries);
    var mimo := FindMimo(entries);
    s := Structure(p.providers, p.models, map[
      "authoritative_recognition" := SingleChain(p, mimo),
      "context_resolution" := SingleChain(p, ContextSource(heads)),
      "strategy_alert" := [],
      "batch_text_recognition" := SingleChain(p, heads.text),
      "batch_image_recognition" := SingleChain(p, heads.image)]);
  }

  // ---------------------------------------------------------------- providers

  predicate Serves(p: Provider, id: string, k: Endpoint) {
    p.id == id && p.baseUrl == k.baseUrl && p.apiKey == k.apiKey && p.timeout == k.timeout && p.enabled
  }

  ghost predicate Served(ps: seq<Provider>, id: string, k: Endpoint) {
    exists i :: 0 <= i < |ps| && Serves(ps[i], id, k)
  }

  /** One provider for each endpoint, and the table knows it. */
  ghost predicate ProvidersOk(ps: seq<Provider>, byKey: map<Endpoint, string>) {
    && DistinctProviders(ps)
    && (forall k | k in byKey :: Served(ps, byKey[k], k))
    && (forall i | 0 <= i < |ps| :: ps[i].id in byKey.Values)
  }

  lemma StillServed(ps: seq<Provider>, np: Provider, id: string, k: Endpoint)
    requires Served(ps, id, k) || Serves(np, id, k)
    ensures Served(ps + [np], id, k)
  {
    var more := ps + [np];
    assert more[|ps|] == np;
    if Served(ps, id, k) {
      var i :| 0 <= i < |ps| && Serves(ps[i], id, k);
      assert more[i] == ps[i];
    }
  }

  lemma StillAValue(byKey: map<Endpoint, string>, key: Endpoint, id: string, other: string)
    requires key !in byKey && other in byKey.Values + {id}
    ensures other in byKey[key := id].Values
  {
    var more := byKey[key := id];
    assert more[key] == id;
    if other in byKey.Values {
      var k :| k in byKey && byKey[k] == other;
      assert more[k] == other;
    }
  }

  lemma OneMoreProvider(ps: seq<Provider>, byKey: map<Endpoint, string>, np: Provider, key: Endpoint)
    requires ProvidersOk(ps, byKey) && key !in byKey && np.id !in byKey.Values && Serves(np, np.id, key)
    ensures ProvidersOk(ps + [np], byKey[key := np.id])
  {
    var more, table := ps + [np], byKey[key := np.id];
    forall k | k in table ensures Served(more, table[k], k) { StillServed(ps, np, table[k], k); }
    forall i | 0 <= i < |more| ensures more[i].id in table.Values {
      if i < |ps| { assert more[i] == ps[i]; }
      StillAValue(byKey, key, np.id, more[i].id);
    }
  }

  lemma AddEntryProviders(naming: Naming, p: Progress, raw: Entry)
    requires ProvidersOk(p.providers, p.byKey)
    ensures ProvidersOk(AddEntry(naming, p, raw).providers, AddEntry(naming, p, raw).byKey)
  {
    var key := EndpointOf(NormalEntry(raw));
    if key in p.byKey {
      assert p.byKey[key := p.byKey[key]] == p.byKey;
    } else {
      var id := ProviderIdFor(naming, p, key);
      FreshIdIsFresh(naming.Base(key.baseUrl), p.byKey.Values);
      OneMoreProvider(p.providers, p.byKey, NewProvider(naming, id, key), key);
    }
  }

  /** Whatever the entries, the migrated providers have pairwise distinct ids, one for each endpoint. */
  lemma {:induction false} ProviderIdsDistinct(naming: Naming, entries: seq<Entry>)
    ensures ProvidersOk(AddEntries(naming, entries).providers, AddEntries(naming, entries).byKey)
  {
    if entries != [] {
      ProviderIdsDistinct(naming, entries[..|entries| - 1]);
      AddEntryProviders(naming, AddEntries(naming, entries[..|entries| - 1]), entries[|entries| - 1]);
    }
  }

  // ---------------------------------------------------------------- model ids

  /** The entries that are kept, normalised. */
  function KeptEntries(entries: seq<Entry>): seq<Entry> {
    if entries == [] then []
    else if Strip(entries[|entries| - 1].id) == "" then KeptEntries(entries[..|entries| - 1])
    else KeptEntries(entries[..|entries| - 1]) + [NormalEntry(entries[|entries| - 1])]
  }

  predicate DistinctEntries(es: seq<Entry>) { forall i, j | 0 <= i < j < |es| :: es[i].id != es[j].id }

  function Sources(es: seq<Entry>): (r: seq<string>)
    ensures |r| == |es| && forall i | 0 <= i < |es| :: r[i] == es[i].id
  {
    seq(|es|, i requires 0 <= i < |es| => es[i].id)
  }

  /** The table of given ids after a list of source ids, from the source ids alone; a repeat overwrites its entry. */
  function TableOf(sources: seq<string>): map<string, string>
    decreases |sources|, 0
  {
    if sources == [] then map[]
    else
      var init, last := sources[..|sources| - 1], sources[|sources| - 1];
      TableOf(init)[last := GivenId(init, last)]
  }

  /** The id a source id is given behind the ones before it: itself when valid, else its repair. */
  function GivenId(before: seq<string>, source: string): string
    decreases |before|, 1
  {
    MigratedId(source, TableOf(before).Values)
  }

  function IdsFor(sources: seq<string>): (ids: seq<string>)
    ensures |ids| == |sources| && forall i | 0 <= i < |sources| :: ids[i] == GivenId(sources[..i], sources[i])
  {
    seq(|sources|, i requires 0 <= i < |sources| => GivenId(sources[..i], sources[i]))
  }

  /** A valid source id that repeats an earlier one, or spells out the repair of an earlier invalid one. */
  predicate SpelledOut(sources: seq<string>, i: nat, j: nat)
    requires i < j < |sources|
  {
    ValidSlug(sources[j]) &&
    (sources[i] == sources[j] || (!ValidSlug(sources[i]) && GivenId(sources[..i], sources[i]) == sources[j]))
  }

  /** An invalid source id whose repair was given before, to an invalid one that was repeated in between:
      the table had forgotten it. */
  predicate Forgotten(sources: seq<string>, i: nat, j: nat)
    requires i < j < |sources|
  {
    !ValidSlug(sources[i]) && !ValidSlug(sources[j]) && sources[i] in sources[i + 1..j] &&
    GivenId(sources[..i], sources[i]) == GivenId(sources[..j], sources[j])
  }

  predicate Collides(sources: seq<string>) {
    exists i: nat, j: nat | i < j < |sources| :: SpelledOut(sources, i, j) || Forgotten(sources, i, j)
  }

  lemma SourcesSnoc(es: seq<Entry>, e: Entry)
    ensures Sources(es + [e]) == Sources(es) + [e.id]
  {
  }

  lemma TableSnoc(init: seq<string>, last: string)
    ensures TableOf(init + [last]) == TableOf(init)[last := GivenId(init, last)]
  {
    assert (init + [last])[..|init|] == init;
  }

  lemma IdsSnoc(init: seq<string>, last: string)
    ensures IdsFor(init + [last]) == IdsFor(init) + [GivenId(init, last)]
  {
    var all := init + [last];
    forall i | 0 <= i < |all| ensures IdsFor(all)[i] == (IdsFor(init) + [GivenId(init, last)])[i] {
      assert all[..i] == init[..i];
    }
  }

  ghost predicate IdsFollow(ms: seq<Model>, ids: seq<string>) {
    |ms| == |ids| && forall i | 0 <= i < |ids| :: ms[i].id == ids[i]
  }

  /** The migrated model ids, and the table they are kept in, are what the source ids alone determine. */
  lemma {:induction false} ModelIdsAre(naming: Naming, entries: seq<Entry>)
    ensures var p, sources := AddEntries(naming, entries), Sources(KeptEntries(entries));
      IdsFollow(p.models, IdsFor(sources)) && p.bySource == TableOf(sources)
  {
    if entries != [] {
      var init, raw := entries[..|entries| - 1], entries[|entries| - 1];
      ModelIdsAre(naming, init);
      if Strip(raw.id) != "" {
        var sources := Sources(KeptEntries(init));
        SourcesSnoc(KeptEntries(init), NormalEntry(raw));
        TableSnoc(sources, Strip(raw.id));
        IdsSnoc(sources, Strip(raw.id));
      }
    }
  }

  /** The table still holds the id of a source that was not repeated since. */
  lemma {:induction false} TableRemembers(sources: seq<string>, i: nat, j: nat)
    requires i < j <= |sources| && (sources[i] !in sources[i + 1..j] || ValidSlug(sources[i]))
    ensures sources[i] in TableOf(sources[..j]) &&
      TableOf(sources[..j])[sources[i]] == GivenId(sources[..i], sources[i])
    decreases j
  {
    var init, last := sources[..j - 1], sources[j - 1];
    assert sources[..j] == init + [last];
    TableSnoc(init, last);
    if i < j - 1 {
      assert sources[i + 1..j] == sources[i + 1..j - 1] + [last];
      TableRemembers(sources, i, j - 1);
    }
  }

  lemma GivenIsFresh(before: seq<string>, source: string)
    requires !ValidSlug(source)
    ensures GivenId(before, source) !in TableOf(before).Values
  {
    FreshIdIsFresh(Slugify(source, "model"), TableOf(before).Values);
  }

  lemma SameIdCollides(sources: seq<string>, i: nat, j: nat)
    requires i < j < |sources| && IdsFor(sources)[i] == IdsFor(sources)[j]
    ensures SpelledOut(sources, i, j) || Forgotten(sources, i, j)
  {
    if !ValidSlug(sources[j]) {
      GivenIsFresh(sources[..j], sources[j]);
      if sources[i] !in sources[i + 1..j] || ValidSlug(sources[i]) {
        TableRemembers(sources, i, j);
      }
    }
  }

  /** The ids given to a list of source ids are distinct exactly when none is spelled out or forgotten. */
  lemma IdsDistinctIff(sources: seq<string>)
    ensures DistinctIds(IdsFor(sources)) <==> !Collides(sources)
  {
    var ids := IdsFor(sources);
    if i: nat, j: nat :| i < j < |sources| && (SpelledOut(sources, i, j) || Forgotten(sources, i, j)) {
      assert ids[i] == ids[j];
    } else {
      forall i, j | 0 <= i < j < |ids| ensures ids[i] != ids[j] {
        if ids[i] == ids[j] { SameIdCollides(sources, i, j); }
      }
    }
  }

  /** Whatever the entries, two migrated models share an id exactly when a valid source id repeats or spells out
      what an earlier one was given, or when the repair of an invalid one comes again after a repeat of its source
      made the table forget it. */
  lemma ModelIdsDistinctIff(naming: Naming, entries: seq<Entry>)
    ensures DistinctModels(AddEntries(naming, entries).models) <==> !Collides(Sources(KeptEntries(entries)))
  {
    var ms, ids := AddEntries(naming, entries).models, IdsFor(Sources(KeptEntries(entries)));
    ModelIdsAre(naming, entries);
    IdsDistinctIff(Sources(KeptEntries(entries)));
    if DistinctModels(ms) {
      forall i, j | 0 <= i < j < |ids| ensures ids[i] != ids[j] { assert ms[i].id != ms[j].id; }
    }
  }

  // ---------------------------------------------------------------- what a source id is bound to

  /** Every source id has an id of a migrated model, its own when that is a valid one. */
  predicate Bindable(p: Progress) {
    && "" !in p.bySource
    && (forall k | k in p.bySource :: p.bySource[k] != "" && ModelAt(p.models, p.bySource[k]).Some?)
    && (forall k | k in p.bySource && ValidSlug(k) :: p.bySource[k] == k)
  }

  lemma MigratedIdIsNamed(source: string, taken: set<string>)
    ensures MigratedId(source, taken) != ""
  {
    if !ValidSlug(source) {
      SlugifyIsValid(source, "model");
      FreshIdIsFresh(Slugify(source, "model"), taken);
    }
  }

  lemma MoreModels(ms: seq<Model>, m: Model, id: string)
    requires ModelAt(ms, id).Some? || m.id == id
    ensures ModelAt(ms + [m], id).Some?
  {
    if ModelAt(ms, id).Some? { assert (ms + [m])[ModelAt(ms, id).value].id == id; }
    assert (ms + [m])[|ms|] == m;
  }

  lemma AddEntryBindable(naming: Naming, p: Progress, raw: Entry)
    requires Bindable(p)
    ensures Bindable(AddEntry(naming, p, raw)) && p.bySource.Keys <= AddEntry(naming, p, raw).bySource.Keys
    ensures Strip(raw.id) != "" ==> Strip(raw.id) in AddEntry(naming, p, raw).bySource
  {
    var q, id := AddEntry(naming, p, raw), Strip(raw.id);
    if id != "" {
      MigratedIdIsNamed(id, p.bySource.Values);
      forall k | k in q.bySource ensures ModelAt(q.models, q.bySource[k]).Some? {
        MoreModels(p.models, q.models[|p.models|], q.bySource[k]);
      }
    }
  }

  lemma {:induction false} EntriesBindable(naming: Naming, es: seq<Entry>)
    ensures Bindable(AddEntries(naming, es))
    ensures forall i | 0 <= i < |es| && Strip(es[i].id) != "" :: Strip(es[i].id) in AddEntries(naming, es).bySource
  {
    if es != [] {
      EntriesBindable(naming, es[..|es| - 1]);
      AddEntryBindable(naming, AddEntries(naming, es[..|es| - 1]), es[|es| - 1]);
      forall i | 0 <= i < |es| && Strip(es[i].id) != "" ensures Strip(es[i].id) in AddEntries(naming, es).bySource {
        if i < |es| - 1 { assert es[..|es| - 1][i] == es[i]; }
      }
    }
  }
}
