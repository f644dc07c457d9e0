/** What migration makes of one more v1 entry and of the v1 heads, said of the entry, the tables so far and
    the heads alone. */
module AiMigrationAnswers {
  import opened Options
  import opened Texts
  import opened AiConfig
  import opened AiConfigSave
  import opened FreshNames
  import opened AiMigration

  /** What is left of an entry: its texts without outer spaces, its URL without closing slashes, its id for a
      title it lacks, a minute for a timeout it lacks. */
  predicate Tidied(raw: Entry, e: Entry) {
    && e.id == Strip(raw.id) && e.apiKey == Strip(raw.apiKey) && e.model == Strip(raw.model)
    && e.title == (if Strip(raw.title) == "" then Strip(raw.id) else Strip(raw.title))
    && e.baseUrl == TrimUrl(raw.baseUrl) && e.timeout == (if raw.timeout == 0 then 60 else raw.timeout)
    && e.text == raw.text && e.image == raw.image
  }

  lemma EntryIsTidied(raw: Entry, e: Entry)
    ensures e == NormalEntry(raw) <==> Tidied(raw, e)
  {
  }

  /** A source id that is a slug stays; any other gets the least free repair of its slug. */
  ghost predicate GivenAs(source: string, taken: set<string>, id: string) {
    if ValidSlug(source) then id == source else IsFresh(Slugify(source, "model"), taken, id)
  }

  /** The provider id of a host before any suffix: its readable name when it is known, else a slug of it. */
  ghost predicate NamedAfter(naming: Naming, url: string, base: string) {
    var host := naming.host(url);
    if host == "api.deepseek.com" then base == "deepseek"
    else if host == "open.bigmodel.cn" then base == "zhipu"
    else if host == "api.xiaomimimo.com" then base == "mimo"
    else base == if host == "" then "custom" else Slugify(host, "custom")
  }

  lemma BaseIs(naming: Naming, url: string)
    ensures NamedAfter(naming, url, naming.Base(url))
  {
    assert |"api.deepseek.com"| == 16 && |"open.bigmodel.cn"| == 16 && |"api.xiaomimimo.com"| == 18;
    assert "api.deepseek.com"[0] == 'a' && "open.bigmodel.cn"[0] == 'o';
  }

  lemma MigratedIdIs(source: string, taken: set<string>)
    ensures GivenAs(source, taken, MigratedId(source, taken))
  {
    FreshIdIsFresh(Slugify(source, "model"), taken);
  }

  /** One more entry, as its tidied form: it gets a model under its own id, on the provider of its endpoint; an
      endpoint seen before keeps its provider, and a new one gets a provider named after its host. */
  ghost predicate Adds(naming: Naming, p: Progress, e: Entry, q: Progress) {
    exists id, pid :: AddsAs(naming, p, e, q, id, pid)
  }

  ghost predicate AddsAs(naming: Naming, p: Progress, e: Entry, q: Progress, id: string, pid: string) {
    var key, title := Endpoint(e.baseUrl, e.apiKey, e.timeout), if e.title == "" then e.id else e.title;
    && GivenAs(e.id, p.bySource.Values, id)
    && q.bySource == p.bySource[e.id := id] && q.byKey == p.byKey[key := pid]
    && q.models == p.models + [Model(id, pid, e.model, title, e.text, e.image, true)]
    && if key in p.byKey then pid == p.byKey[key] && q.providers == p.providers
       else
         && NewProviderId(naming, e.baseUrl, p.byKey.Values, pid)
         && q.providers ==
            p.providers + [Provider(pid, naming.title(pid), e.baseUrl, e.apiKey, e.timeout, true, None)]
  }

  ghost predicate NewProviderId(naming: Naming, url: string, taken: set<string>, pid: string) {
    exists base :: NamedAfter(naming, url, base) && IsFresh(base, taken, pid)
  }

  /** An entry without an id is passed over; every other one is added. */
  lemma EntryAdds(naming: Naming, p: Progress, raw: Entry, e: Entry)
    requires Tidied(raw, e)
    ensures if e.id == "" then AddEntry(naming, p, raw) == p else Adds(naming, p, e, AddEntry(naming, p, raw))
  {
    EntryIsTidied(raw, e);
    if e.id != "" {
      var key := Endpoint(e.baseUrl, e.apiKey, e.timeout);
      var id, pid := MigratedId(e.id, p.bySource.Values), ProviderIdFor(naming, p, key);
      MigratedIdIs(e.id, p.bySource.Values);
      if key !in p.byKey {
        BaseIs(naming, e.baseUrl);
        FreshIdIsFresh(naming.Base(e.baseUrl), p.byKey.Values);
        assert NewProviderId(naming, e.baseUrl, p.byKey.Values, pid);
      }
      assert AddsAs(naming, p, e, AddEntry(naming, p, raw), id, pid);
    }
  }

  lemma EntriesSnoc(naming: Naming, entries: seq<Entry>, raw: Entry)
    ensures AddEntries(naming, entries + [raw]) == AddEntry(naming, AddEntries(naming, entries), raw)
  {
    assert (entries + [raw])[..|entries|] == entries;
  }

  /** Each step of a migration: the first state is empty, and every entry is added to the state before it. */
  lemma {:induction false} MigrationAdds(naming: Naming, entries: seq<Entry>, i: nat, e: Entry)
    requires i < |entries| && Tidied(entries[i], e)
    ensures AddEntries(naming, []) == Progress([], [], map[], map[])
    ensures var before, after := AddEntries(naming, entries[..i]), AddEntries(naming, entries[..i + 1]);
      if e.id == "" then after == before else Adds(naming, before, e, after)
  {
    assert entries[..i + 1] == entries[..i] + [entries[i]];
    EntriesSnoc(naming, entries[..i], entries[i]);
    EntryAdds(naming, AddEntries(naming, entries[..i]), entries[i], e);
  }

  // ---------------------------------------------------------------- the chains

  /** The entry production calls is the first with the mimo id or the mimo model. */
  ghost predicate IsMimo(entries: seq<Entry>, id: string) {
    || (&& id == "" && forall i | 0 <= i < |entries| :: entries[i].id != "mimo-v2.5" && entries[i].model != "mimo-v2.5")
    || (exists i :: 0 <= i < |entries| && MimoAt(entries, i) && id == Strip(entries[i].id))
  }

  predicate MimoAt(entries: seq<Entry>, i: nat)
    requires i < |entries|
  {
    && (entries[i].id == "mimo-v2.5" || entries[i].model == "mimo-v2.5")
    && forall j | 0 <= j < i :: entries[j].id != "mimo-v2.5" && entries[j].model != "mimo-v2.5"
  }

  lemma {:induction false} MimoIs(entries: seq<Entry>)
    ensures IsMimo(entries, MimoId(entries))
  {
    if entries != [] {
      var rest := entries[1..];
      if entries[0].id == MIMO || entries[0].model == MIMO {
        assert MimoAt(entries, 0);
      } else {
        MimoIs(rest);
        assert forall j | 0 < j < |entries| :: entries[j] == rest[j - 1];
        if i :| 0 <= i < |rest| && MimoAt(rest, i) && MimoId(entries) == Strip(rest[i].id) {
          assert MimoAt(entries, i + 1);
        }
      }
    }
  }

  /** A v1 id names the one model migrated from it, if there is one. */
  ghost predicate NamesOne(p: Progress, source: string, chain: seq<string>) {
    var key := Strip(source);
    if key in p.bySource && p.bySource[key] != "" && IsAModel(p.models, p.bySource[key])
    then chain == [p.bySource[key]] else chain == []
  }

  ghost predicate IsAModel(ms: seq<Model>, id: string) { exists i :: 0 <= i < |ms| && ms[i].id == id }

  lemma SingleChainIs(p: Progress, source: string)
    ensures NamesOne(p, source, SingleChain(p, source))
  {
  }

  lemma ChainedAre(p: Progress, entries: seq<Entry>, heads: Heads)
    ensures var c := Chained(p, entries, heads);
      && c.Keys == {"authoritative_recognition", "context_resolution", "strategy_alert", "batch_text_recognition",
                    "batch_image_recognition"}
      && c["authoritative_recognition"] == SingleChain(p, MimoId(entries)) && c["strategy_alert"] == []
      && c["context_resolution"] == SingleChain(p, ContextSource(heads))
      && c["batch_text_recognition"] == SingleChain(p, heads.text)
      && c["batch_image_recognition"] == SingleChain(p, heads.image)
  {
    StageNamesDiffer();
  }

  /** The five chains of a migrated structure: the mimo entry for the authoritative stage, the two heads for
      theirs, the context head or else the text head for the context, and nothing for the alerts. */
  lemma ChainsAre(naming: Naming, entries: seq<Entry>, heads: Heads)
    ensures var s, p := Migrate(naming, entries, heads), AddEntries(naming, entries);
      && s.providers == p.providers && s.models == p.models
      && s.stages.Keys == {"authoritative_recognition", "context_resolution", "strategy_alert",
                           "batch_text_recognition", "batch_image_recognition"}
      && NamesOne(p, MimoId(entries), s.stages["authoritative_recognition"]) && IsMimo(entries, MimoId(entries))
      && NamesOne(p, heads.text, s.stages["batch_text_recognition"])
      && NamesOne(p, heads.image, s.stages["batch_image_recognition"])
      && NamesOne(p, if Strip(heads.context) == "" then Strip(heads.text) else Strip(heads.context),
                  s.stages["context_resolution"])
      && s.stages["strategy_alert"] == []
  {
    var p := AddEntries(naming, entries);
    MimoIs(entries);
    ChainedAre(p, entries, heads);
    SingleChainIs(p, MimoId(entries));
    SingleChainIs(p, heads.text);
    SingleChainIs(p, heads.image);
    SingleChainIs(p, ContextSource(heads));
  }

  lemma StageNamesDiffer()
    ensures "authoritative_recognition" != "context_resolution" && "authoritative_recognition" != "strategy_alert"
    ensures "authoritative_recognition" != "batch_text_recognition"
    ensures "authoritative_recognition" != "batch_image_recognition"
    ensures "context_resolution" != "strategy_alert" && "context_resolution" != "batch_text_recognition"
    ensures "context_resolution" != "batch_image_recognition" && "strategy_alert" != "batch_text_recognition"
    ensures "strategy_alert" != "batch_image_recognition" && "batch_text_recognition" != "batch_image_recognition"
  {
    assert |"authoritative_recognition"| == 25 && |"context_resolution"| == 18 && |"strategy_alert"| == 14;
    assert |"batch_text_recognition"| == 22 && |"batch_image_recognition"| == 23;
  }
}
