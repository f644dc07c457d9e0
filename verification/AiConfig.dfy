/** The three-layer AI configuration: providers, models and ordered stage chains; its
    normalisation, and the models a stage can really call. */
module AiConfig {
  import opened Options
  import opened Texts

  datatype Provider = Provider(
    id: string, title: string, baseUrl: string, apiKey: string, timeout: int, enabled: bool, appendV1: Option<bool>)

  datatype Model = Model(
    id: string, providerId: string, model: string, title: string, text: bool, image: bool, enabled: bool)

  /** A model joined with its provider: what a call site is given. */
  datatype Bound = Bound(
    id: string, title: string, baseUrl: string, apiKey: string, model: string, timeout: int,
    text: bool, image: bool, appendV1: Option<bool>)

  datatype Stage = Stage(key: string, needsText: bool, needsImage: bool)

  const STAGES: seq<Stage> := [
    Stage("authoritative_recognition", true, true),
    Stage("context_resolution", true, false),
    Stage("strategy_alert", true, false),
    Stage("batch_text_recognition", true, false),
    Stage("batch_image_recognition", false, true)]

  predicate StageSupports(s: Stage, m: Model) {
    (s.needsText ==> m.text) && (s.needsImage ==> m.image)
  }

  function StageAt(key: string): Option<Stage> {
    if exists i :: 0 <= i < |STAGES| && STAGES[i].key == key
    then
      if key == STAGES[0].key then Some(STAGES[0])
      else if key == STAGES[1].key then Some(STAGES[1])
      else if key == STAGES[2].key then Some(STAGES[2])
      else if key == STAGES[3].key then Some(STAGES[3])
      else Some(STAGES[4])
    else None
  }

  datatype Problem = BadProviderId | DuplicateProvider | BadModelId | DuplicateModel | UnknownProvider | CannotServe

  // ---------------------------------------------------------------- slugs and base URLs

  predicate Alnum(c: char) { 'a' <= c <= 'z' || 'A' <= c <= 'Z' || '0' <= c <= '9' }

  predicate SlugChar(c: char) { Alnum(c) || c == '.' || c == '_' || c == '-' }

  predicate ValidSlug(s: string) {
    1 <= |s| <= 64 && Alnum(s[0]) && forall i | 0 <= i < |s| :: SlugChar(s[i])
  }

  lemma SlugsAreStripped(s: string)
    requires ValidSlug(s)
    ensures Strip(s) == s && s != ""
  {
    StrippedIsFixed(s);
  }

  function DropSlashes(s: string): string {
    if s != "" && s[|s| - 1] == '/' then DropSlashes(s[..|s| - 1]) else s
  }

  function TrimUrl(s: string): string {
    DropSlashes(Strip(s))
  }

  /** Trimming is settled when dropping the slashes did not uncover a space. */
  predicate Settled(s: string) {
    TrimUrl(s) == "" || !IsSpace(TrimUrl(s)[|TrimUrl(s)| - 1])
  }

  lemma {:induction false} DropSlashesPrefix(s: string)
    ensures DropSlashes(s) <= s && DropSlashes(DropSlashes(s)) == DropSlashes(s)
  {
    if s != "" && s[|s| - 1] == '/' { DropSlashesPrefix(s[..|s| - 1]); }
  }

  lemma {:induction false} StripRightShortens(s: string)
    ensures |StripRight(s)| <= |s|
    ensures s != "" && IsSpace(s[|s| - 1]) ==> |StripRight(s)| < |s|
  {
    if s != "" && IsSpace(s[|s| - 1]) { StripRightShortens(s[..|s| - 1]); }
  }

  /** Trimming a base URL twice is trimming it once, exactly when it is settled. */
  lemma TrimUrlIdempotentIff(s: string)
    ensures TrimUrl(TrimUrl(s)) == TrimUrl(s) <==> Settled(s)
  {
    var t := TrimUrl(s);
    StripIdempotent(s);
    DropSlashesPrefix(Strip(s));
    if t != "" {
      assert t[0] == Strip(s)[0];
      if Settled(s) {
        StrippedIsFixed(t);
      } else {
        assert StripLeft(t) == t;
        StripRightShortens(t);
        DropSlashesPrefix(Strip(t));
        assert |TrimUrl(t)| < |t|;
      }
    }
  }

  // ---------------------------------------------------------------- normalising providers and models

  function NormalProvider(infer: string -> bool, p: Provider): Provider {
    var url := TrimUrl(p.baseUrl);
    Provider(Strip(p.id), Strip(p.title), url, Strip(p.apiKey), if p.timeout == 0 then 60 else p.timeout, p.enabled,
             Some(if p.appendV1.Some? then p.appendV1.value else infer(url)))
  }

  function NormalModel(m: Model): Model {
    var id := Strip(m.id);
    var title := Strip(m.title);
    Model(id, Strip(m.providerId), Strip(m.model), if title == "" then id else title, m.text, m.image, m.enabled)
  }

  /** The position of the provider with an id, if any; the later one wins when an id repeats. */
  function ProviderAt(ps: seq<Provider>, id: string): (r: Option<nat>)
    ensures r.Some? ==> r.value < |ps| && ps[r.value].id == id
    ensures r == None <==> forall i | 0 <= i < |ps| :: ps[i].id != id
  {
    if ps == [] then None
    else if ps[|ps| - 1].id == id then Some(|ps| - 1)
    else ProviderAt(ps[..|ps| - 1], id)
  }

  function ModelAt(ms: seq<Model>, id: string): (r: Option<nat>)
    ensures r.Some? ==> r.value < |ms| && ms[r.value].id == id
    ensures r == None <==> forall i | 0 <= i < |ms| :: ms[i].id != id
  {
    if ms == [] then None
    else if ms[|ms| - 1].id == id then Some(|ms| - 1)
    else ModelAt(ms[..|ms| - 1], id)
  }

  function AddProvider(done: (seq<Provider>, seq<Problem>), item: Provider): (seq<Provider>, seq<Problem>) {
    if !ValidSlug(item.id) then (done.0, done.1 + [BadProviderId])
    else if ProviderAt(done.0, item.id).Some? then (done.0, done.1 + [DuplicateProvider])
    else (done.0 + [item], done.1)
  }

  function NormalProviders(infer: string -> bool, ps: seq<Provider>): (seq<Provider>, seq<Problem>) {
    if ps == [] then ([], [])
    else AddProvider(NormalProviders(infer, ps[..|ps| - 1]), NormalProvider(infer, ps[|ps| - 1]))
  }

  function AddModel(done: (seq<Model>, seq<Problem>), item: Model, ps: seq<Provider>): (seq<Model>, seq<Problem>) {
    if !ValidSlug(item.id) then (done.0, done.1 + [BadModelId])
    else if ModelAt(done.0, item.id).Some? then (done.0, done.1 + [DuplicateModel])
    else if ProviderAt(ps, item.providerId) == None then (done.0, done.1 + [UnknownProvider])
    else (done.0 + [item], done.1)
  }

  function NormalModels(ms: seq<Model>, ps: seq<Provider>): (seq<Model>, seq<Problem>) {
    if ms == [] then ([], [])
    else AddModel(NormalModels(ms[..|ms| - 1], ps), NormalModel(ms[|ms| - 1]), ps)
  }

  // ---------------------------------------------------------------- normalising stage chains

  function AddMember(done: (seq<string>, seq<Problem>), rawId: string, stage: Stage,
      ms: seq<Model>): (seq<string>, seq<Problem>) {
    var id := Strip(rawId);
    if id == "" || id in done.0 then done
    else
      match ModelAt(ms, id)
      case None => done
      case Some(i) => if StageSupports(stage, ms[i]) then (done.0 + [id], done.1) else (done.0, done.1 + [CannotServe])
  }

  function NormalChain(stage: Stage, raw: seq<string>, ms: seq<Model>): (seq<string>, seq<Problem>) {
    if raw == [] then ([], [])
    else AddMember(NormalChain(stage, raw[..|raw| - 1], ms), raw[|raw| - 1], stage, ms)
  }

  type Chains = map<string, seq<string>>

  function ChainOf(stages: Chains, key: string): seq<string> {
    if key in stages then stages[key] else []
  }

  /** The stages of a catalogue, normalised; unknown stage keys are dropped. */
  function NormalStages(raw: Chains, ms: seq<Model>, catalogue: seq<Stage>): (Chains, seq<Problem>) {
    if catalogue == [] then (map[], [])
    else
      var last := catalogue[|catalogue| - 1];
      var (done, problems) := NormalStages(raw, ms, catalogue[..|catalogue| - 1]);
      var (chain, more) := NormalChain(last, ChainOf(raw, last.key), ms);
      (done[last.key := chain], problems + more)
  }

  datatype Structure = Structure(providers: seq<Provider>, models: seq<Model>, stages: Chains)

  function Normal(infer: string -> bool, raw: Structure): (Structure, seq<Problem>) {
    var (ps, e1) := NormalProviders(infer, raw.providers);
    var (ms, e2) := NormalModels(raw.models, ps);
    var (stages, e3) := NormalStages(raw.stages, ms, STAGES);
    (Structure(ps, ms, stages), e1 + e2 + e3)
  }

  // ---------------------------------------------------------------- what a stage can call

  function Bind(m: Model, p: Provider): Bound {
    Bound(m.id, if m.title == "" then m.id else m.title, p.baseUrl, p.apiKey, m.model, p.timeout, m.text, m.image,
      p.appendV1)
  }

  predicate Configured(b: Bound) {
    Strip(b.baseUrl) != "" && Strip(b.model) != ""
  }

  /** The bound model behind one chain member, if it can be called right now. */
  function Route(s: Structure, stage: Option<Stage>, id: string): Option<Bound> {
    match ModelAt(s.models, id)
    case None => None
    case Some(i) =>
      var m := s.models[i];
      match ProviderAt(s.providers, m.providerId)
      case None => None
      case Some(j) =>
        if m.enabled && s.providers[j].enabled && (stage.Some? ==> StageSupports(stage.value, m))
           && Configured(Bind(m, s.providers[j]))
        then Some(Bind(m, s.providers[j])) else None
  }

  function ResolveChain(s: Structure, stage: Option<Stage>, chain: seq<string>): seq<Bound> {
    if chain == [] then []
    else
      var done := ResolveChain(s, stage, chain[..|chain| - 1]);
      var id := chain[|chain| - 1];
      if Route(s, stage, id).Some? && (forall i | 0 <= i < |done| :: done[i].id != id)
      then done + [Route(s, stage, id).value] else done
  }

  /** The ordered models one stage can actually call. */
  function Resolve(s: Structure, key: string): seq<Bound> {
    ResolveChain(s, StageAt(key), ChainOf(s.stages, key))
  }

  // ---------------------------------------------------------------- the loops

  method NormalizeProviders(infer: string -> bool, raw: seq<Provider>)
    returns (ps: seq<Provider>, problems: seq<Problem>)
    ensures (ps, problems) == NormalProviders(infer, raw)
  {
    ps, problems := [], [];
    var i := 0;
    while i < |raw|
      invariant 0 <= i <= |raw|
      invariant (ps, problems) == NormalProviders(infer, raw[..i])
    {
      assert raw[..i + 1][..i] == raw[..i];
      var item := NormalProvider(infer, raw[i]);
      if !ValidSlug(item.id) {
        problems := problems + [BadProviderId];
      } else if ProviderAt(ps, item.id).Some? {
        problems := problems + [DuplicateProvider];
      } else {
        ps := ps + [item];
      }
      i := i + 1;
    }
    assert raw[..i] == raw;
  }

  method NormalizeModels(raw: seq<Model>, ps: seq<Provider>) returns (ms: seq<Model>, problems: seq<Problem>)
    ensures (ms, problems) == NormalModels(raw, ps)
  {
    ms, problems := [], [];
    var i := 0;
    while i < |raw|
      invariant 0 <= i <= |raw|
      invariant (ms, problems) == NormalModels(raw[..i], ps)
    {
      assert raw[..i + 1][..i] == raw[..i];
      var item := NormalModel(raw[i]);
      if !ValidSlug(item.id) {
        problems := problems + [BadModelId];
      } else if ModelAt(ms, item.id).Some? {
        problems := problems + [DuplicateModel];
      } else if ProviderAt(ps, item.providerId) == None {
        problems := problems + [UnknownProvider];
      } else {
        ms := ms + [item];
      }
      i := i + 1;
    }
    assert raw[..i] == raw;
  }

  method NormalizeChain(stage: Stage, raw: seq<string>, ms: seq<Model>)
    returns (chain: seq<string>, problems: seq<Problem>)
    ensures (chain, problems) == NormalChain(stage, raw, ms)
  {
    chain, problems := [], [];
    var i := 0;
    while i < |raw|
      invariant 0 <= i <= |raw|
      invariant (chain, problems) == NormalChain(stage, raw[..i], ms)
    {
      assert raw[..i + 1][..i] == raw[..i];
      var id := Strip(raw[i]);
      if id != "" && id !in chain {
        var at := ModelAt(ms, id);
        if at.Some? {
          if StageSupports(stage, ms[at.value]) {
            chain := chain + [id];
          } else {
            problems := problems + [CannotServe];
          }
        }
      }
      i := i + 1;
    }
    assert raw[..i] == raw;
  }

  method NormalizeStages(raw: Chains, ms: seq<Model>, catalogue: seq<Stage>)
    returns (stages: Chains, problems: seq<Problem>)
    ensures (stages, problems) == NormalStages(raw, ms, catalogue)
  {
    stages, problems := map[], [];
    var n := 0;
    while n < |catalogue|
      invariant 0 <= n <= |catalogue|
      invariant (stages, problems) == NormalStages(raw, ms, catalogue[..n])
    {
      assert catalogue[..n + 1][..n] == catalogue[..n];
      var key := catalogue[n].key;
      var chain, more := NormalizeChain(catalogue[n], ChainOf(raw, key), ms);
      stages, problems := stages[key := chain], problems + more;
      n := n + 1;
    }
    assert catalogue[..n] == catalogue;
  }

  method Normalize(infer: string -> bool, raw: Structure) returns (s: Structure, problems: seq<Problem>)
    ensures (s, problems) == Normal(infer, raw)
  {
    var ps, e1 := NormalizeProviders(infer, raw.providers);
    var ms, e2 := NormalizeModels(raw.models, ps);
    var stages, e3 := NormalizeStages(raw.stages, ms, STAGES);
    return Structure(ps, ms, stages), e1 + e2 + e3;
  }

  ghost predicate SeenIds(seen: set<string>, resolved: seq<Bound>) {
    forall id :: id in seen <==> exists k :: 0 <= k < |resolved| && resolved[k].id == id
  }

  method ResolveMembers(s: Structure, stage: Option<Stage>, chain: seq<string>) returns (resolved: seq<Bound>)
    ensures resolved == ResolveChain(s, stage, chain)
  {
    resolved := [];
    var seen: set<string> := {};
    var i := 0;
    while i < |chain|
      invariant 0 <= i <= |chain|
      invariant resolved == ResolveChain(s, stage, chain[..i])
      invariant SeenIds(seen, resolved)
    {
      assert chain[..i + 1][..i] == chain[..i];
      var bound := Route(s, stage, chain[i]);
      if bound.Some? && chain[i] !in seen {
        SeenOneMore(seen, resolved, bound.value);
        resolved := resolved + [bound.value];
        seen := seen + {chain[i]};
      }
      i := i + 1;
    }
    assert chain[..i] == chain;
  }

  lemma SeenOneMore(seen: set<string>, resolved: seq<Bound>, b: Bound)
    requires SeenIds(seen, resolved)
    ensures SeenIds(seen + {b.id}, resolved + [b])
  {
    var more := resolved + [b];
    forall id ensures id in seen + {b.id} <==> exists k :: 0 <= k < |more| && more[k].id == id {
      if id == b.id { assert more[|resolved|].id == id; }
      if id in seen {
        var k :| 0 <= k < |resolved| && resolved[k].id == id;
        assert more[k].id == id;
      }
    }
  }

  method ResolveStageModels(s: Structure, key: string) returns (resolved: seq<Bound>)
    ensures resolved == Resolve(s, key)
  {
    resolved := ResolveMembers(s, StageAt(key), ChainOf(s.stages, key));
  }
}
