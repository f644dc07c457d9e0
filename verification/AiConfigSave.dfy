/** Loading and saving the configuration: the derived v1 heads, their promotion, and
    why saving what was just loaded changes no stage's real chain. */
module AiConfigSave {
  import opened Options
  import opened Texts
  import opened AiConfig

  const TEXT_STAGE := "batch_text_recognition"
  const IMAGE_STAGE := "batch_image_recognition"
  const CONTEXT_STAGE := "context_resolution"

  /** The v1 fields: the id each legacy stage starts with, empty when it has no usable model. */
  datatype Heads = Heads(text: string, image: string, context: string)

  /** A structure with the v1 ids that name its heads. */
  datatype Headed = Headed(structure: Structure, heads: Heads)

  function FirstId(chain: seq<Bound>): string {
    if chain == [] then "" else chain[0].id
  }

  function DerivedHeads(s: Structure): Heads {
    Heads(FirstId(Resolve(s, TEXT_STAGE)), FirstId(Resolve(s, IMAGE_STAGE)), FirstId(Resolve(s, CONTEXT_STAGE)))
  }

  function Without(chain: seq<string>, id: string): seq<string> {
    if chain == [] then []
    else if chain[|chain| - 1] == id then Without(chain[..|chain| - 1], id)
    else Without(chain[..|chain| - 1], id) + [chain[|chain| - 1]]
  }

  /** A named head moves to the front of its chain; the rest stays behind it. */
  function PromotedChain(chain: seq<string>, head: string): seq<string> {
    if chain != [] && chain[0] == head then chain else [head] + Without(chain, head)
  }

  function Promote(stages: Chains, ms: seq<Model>, key: string, rawHead: string): Chains {
    var head := Strip(rawHead);
    if head == "" then stages
    else
      match (ModelAt(ms, head), StageAt(key))
      case (Some(i), Some(stage)) =>
        if !StageSupports(stage, ms[i]) then stages
        else stages[key := PromotedChain(ChainOf(stages, key), head)]
      case _ => stages
  }

  function PromoteLegacyHeads(stages: Chains, ms: seq<Model>, heads: Heads): Chains {
    Promote(Promote(Promote(stages, ms, TEXT_STAGE, heads.text), ms, IMAGE_STAGE, heads.image), ms, CONTEXT_STAGE,
      heads.context)
  }

  function LoadStructure(infer: string -> bool, file: Structure): Headed {
    var s := Normal(infer, file).0;
    Headed(s, DerivedHeads(s))
  }

  /** `None` is the validation error. */
  function SaveStructure(infer: string -> bool, c: Headed): Option<Headed> {
    var (s, problems) := Normal(infer, c.structure);
    if problems != [] then None
    else
      var promoted := s.(stages := PromoteLegacyHeads(s.stages, s.models, c.heads));
      Some(Headed(promoted, DerivedHeads(promoted)))
  }

  /** The promotion as the program runs it: one stage at a time over a copied table. */
  method PromoteHeads(stages: Chains, ms: seq<Model>, heads: Heads) returns (merged: Chains)
    ensures merged == PromoteLegacyHeads(stages, ms, heads)
  {
    var named := [(TEXT_STAGE, heads.text), (IMAGE_STAGE, heads.image), (CONTEXT_STAGE, heads.context)];
    merged := stages;
    ghost var first := Promote(stages, ms, TEXT_STAGE, heads.text);
    var i := 0;
    while i < |named|
      invariant 0 <= i <= 3
      invariant i == 0 ==> merged == stages
      invariant i == 1 ==> merged == first
      invariant i == 2 ==> merged == Promote(first, ms, IMAGE_STAGE, heads.image)
      invariant i == 3 ==> merged == PromoteLegacyHeads(stages, ms, heads)
    {
      var (key, rawHead) := named[i];
      var head := Strip(rawHead);
      if head != "" {
        var at, stage := ModelAt(ms, head), StageAt(key);
        if at.Some? && stage.Some? && StageSupports(stage.value, ms[at.value]) {
          merged := merged[key := PromotedChain(ChainOf(merged, key), head)];
        }
      }
      i := i + 1;
    }
  }

  // ---------------------------------------------------------------- normal form

  predicate ShapedProvider(p: Provider) {
    ValidSlug(p.id) && Strip(p.title) == p.title && Strip(p.apiKey) == p.apiKey && p.timeout != 0 && p.appendV1.Some?
  }

  predicate ShapedModel(m: Model, ps: seq<Provider>) {
    && ValidSlug(m.id) && Strip(m.providerId) == m.providerId && Strip(m.model) == m.model
    && Strip(m.title) == m.title && m.title != "" && ProviderAt(ps, m.providerId).Some?
  }

  predicate DistinctProviders(ps: seq<Provider>) { forall i, j | 0 <= i < j < |ps| :: ps[i].id != ps[j].id }

  predicate DistinctModels(ms: seq<Model>) { forall i, j | 0 <= i < j < |ms| :: ms[i].id != ms[j].id }

  predicate Member(ms: seq<Model>, stage: Stage, id: string) {
    id != "" && Strip(id) == id && ModelAt(ms, id).Some? && StageSupports(stage, ms[ModelAt(ms, id).value])
  }

  predicate ShapedChain(ms: seq<Model>, stage: Stage, chain: seq<string>) {
    && (forall i, j | 0 <= i < j < |chain| :: chain[i] != chain[j])
    && (forall i | 0 <= i < |chain| :: Member(ms, stage, chain[i]))
  }

  /** A structure as normalisation leaves it, whatever its base URLs. */
  ghost predicate Shaped(s: Structure) {
    && (forall p | p in s.providers :: ShapedProvider(p)) && DistinctProviders(s.providers)
    && (forall m | m in s.models :: ShapedModel(m, s.providers)) && DistinctModels(s.models)
    && ShapedStages(s.stages, s.models, STAGES)
  }

  ghost predicate ShapedStages(stages: Chains, ms: seq<Model>, catalogue: seq<Stage>) {
    && (forall key :: key in stages <==> exists i :: 0 <= i < |catalogue| && catalogue[i].key == key)
    && (forall i | 0 <= i < |catalogue| ::
       catalogue[i].key in stages && ShapedChain(ms, catalogue[i], stages[catalogue[i].key]))
  }

  ghost predicate DistinctStages(catalogue: seq<Stage>) {
    forall i, j | 0 <= i < j < |catalogue| :: catalogue[i].key != catalogue[j].key
  }

  lemma NormalProviderShaped(infer: string -> bool, p: Provider)
    requires ValidSlug(NormalProvider(infer, p).id)
    ensures ShapedProvider(NormalProvider(infer, p))
  {
    StripIdempotent(p.title);
    StripIdempotent(p.apiKey);
  }

  predicate ShapedProviders(ps: seq<Provider>) {
    (forall i | 0 <= i < |ps| :: ShapedProvider(ps[i])) && DistinctProviders(ps)
  }

  lemma AddProviderShaped(done: seq<Provider>, problems: seq<Problem>, item: Provider)
    requires ShapedProviders(done) && (ValidSlug(item.id) ==> ShapedProvider(item))
    ensures ShapedProviders(AddProvider((done, problems), item).0)
  {
  }

  lemma {:induction false} NormalProvidersAreShaped(infer: string -> bool, raw: seq<Provider>)
    ensures ShapedProviders(NormalProviders(infer, raw).0)
  {
    if raw != [] {
      var init, last := NormalProviders(infer, raw[..|raw| - 1]), NormalProvider(infer, raw[|raw| - 1]);
      NormalProvidersAreShaped(infer, raw[..|raw| - 1]);
      if ValidSlug(last.id) { NormalProviderShaped(infer, raw[|raw| - 1]); }
      AddProviderShaped(init.0, init.1, last);
    }
  }

  lemma NormalProvidersShaped(infer: string -> bool, raw: seq<Provider>)
    ensures var ps := NormalProviders(infer, raw).0; (forall p | p in ps :: ShapedProvider(p)) && DistinctProviders(ps)
  {
    NormalProvidersAreShaped(infer, raw);
  }

  lemma {:induction false} NormalProvidersUrls(infer: string -> bool, raw: seq<Provider>)
    requires forall r | r in raw :: Settled(r.baseUrl)
    ensures forall p | p in NormalProviders(infer, raw).0 :: TrimUrl(p.baseUrl) == p.baseUrl
  {
    if raw != [] {
      var last := raw[|raw| - 1];
      assert last in raw && forall r | r in raw[..|raw| - 1] :: r in raw;
      NormalProvidersUrls(infer, raw[..|raw| - 1]);
      TrimUrlIdempotentIff(last.baseUrl);
    }
  }

  lemma {:induction false} NormalModelsShaped(raw: seq<Model>, ps: seq<Provider>)
    ensures var ms := NormalModels(raw, ps).0; (forall m | m in ms :: ShapedModel(m, ps)) && DistinctModels(ms)
  {
    if raw != [] {
      var last := raw[|raw| - 1];
      NormalModelsShaped(raw[..|raw| - 1], ps);
      StripIdempotent(last.providerId);
      StripIdempotent(last.model);
      StripIdempotent(last.title);
      StripIdempotent(last.id);
    }
  }

  lemma {:induction false} NormalChainShaped(stage: Stage, raw: seq<string>, ms: seq<Model>)
    ensures ShapedChain(ms, stage, NormalChain(stage, raw, ms).0)
  {
    if raw != [] {
      NormalChainShaped(stage, raw[..|raw| - 1], ms);
      StripIdempotent(raw[|raw| - 1]);
    }
  }

  lemma StageKeysDiffer()
    ensures DistinctStages(STAGES)
  {
    assert STAGES[0].key[0] == 'a' && STAGES[1].key[0] == 'c' && STAGES[2].key[0] == 's';
    assert STAGES[3].key[6] == 't' && STAGES[4].key[6] == 'i' && STAGES[3].key[0] == 'b' && STAGES[4].key[0] == 'b';
  }

  lemma StagesAreFound()
    ensures forall i | 0 <= i < |STAGES| :: StageAt(STAGES[i].key) == Some(STAGES[i])
  {
    StageKeysDiffer();
    forall i | 0 <= i < |STAGES| ensures StageAt(STAGES[i].key) == Some(STAGES[i]) {
      assert i == 0 || i == 1 || i == 2 || i == 3 || i == 4;
    }
  }

  lemma StageKeysDistinct()
    ensures DistinctStages(STAGES)
    ensures forall i | 0 <= i < |STAGES| :: StageAt(STAGES[i].key) == Some(STAGES[i])
    ensures forall key :: StageAt(key).Some? <==> exists i :: 0 <= i < |STAGES| && STAGES[i].key == key
  {
    StageKeysDiffer();
    StagesAreFound();
  }

  lemma ShapedStagesOneMore(done: Chains, ms: seq<Model>, catalogue: seq<Stage>, last: Stage, chain: seq<string>)
    requires ShapedStages(done, ms, catalogue) && ShapedChain(ms, last, chain)
    requires forall i | 0 <= i < |catalogue| :: catalogue[i].key != last.key
    ensures ShapedStages(done[last.key := chain], ms, catalogue + [last])
  {
    var more, all := done[last.key := chain], catalogue + [last];
    forall key ensures key in more <==> exists i :: 0 <= i < |all| && all[i].key == key {
      if key == last.key { assert all[|catalogue|].key == key; }
      if key in done {
        var i :| 0 <= i < |catalogue| && catalogue[i].key == key;
        assert all[i].key == key;
      }
    }
    forall i | 0 <= i < |all| ensures all[i].key in more && ShapedChain(ms, all[i], more[all[i].key]) {
      if i < |catalogue| { assert all[i] == catalogue[i]; }
    }
  }

  lemma {:induction false} NormalStagesShaped(raw: Chains, ms: seq<Model>, catalogue: seq<Stage>)
    requires DistinctStages(catalogue)
    ensures ShapedStages(NormalStages(raw, ms, catalogue).0, ms, catalogue)
  {
    if catalogue != [] {
      var init, last := catalogue[..|catalogue| - 1], catalogue[|catalogue| - 1];
      NormalStagesShaped(raw, ms, init);
      NormalChainShaped(last, ChainOf(raw, last.key), ms);
      ShapedStagesOneMore(NormalStages(raw, ms, init).0, ms, init, last,
        NormalChain(last, ChainOf(raw, last.key), ms).0);
      assert catalogue == init + [last];
    }
  }

  lemma NormalIsShaped(infer: string -> bool, raw: Structure)
    ensures Shaped(Normal(infer, raw).0)
  {
    var ps := NormalProviders(infer, raw.providers).0;
    NormalProvidersShaped(infer, raw.providers);
    NormalModelsShaped(raw.models, ps);
    StageKeysDistinct();
    NormalStagesShaped(raw.stages, NormalModels(raw.models, ps).0, STAGES);
  }

  // ---------------------------------------------------------------- normalising again

  /** A second normalisation can only trim base URLs further. */
  function Retrimmed(ps: seq<Provider>): (r: seq<Provider>)
    ensures |r| == |ps| && forall i | 0 <= i < |ps| :: r[i] == ps[i].(baseUrl := TrimUrl(ps[i].baseUrl))
  {
    seq(|ps|, i requires 0 <= i < |ps| => ps[i].(baseUrl := TrimUrl(ps[i].baseUrl)))
  }

  lemma AddProviderAgain(infer: string -> bool, init: seq<Provider>, last: Provider)
    requires ShapedProvider(last) && forall i | 0 <= i < |init| :: init[i].id != last.id
    ensures AddProvider((Retrimmed(init), []), NormalProvider(infer, last)) == (Retrimmed(init + [last]), [])
  {
    SlugsAreStripped(last.id);
    assert NormalProvider(infer, last) == last.(baseUrl := TrimUrl(last.baseUrl));
    assert Retrimmed(init + [last]) == Retrimmed(init) + [last.(baseUrl := TrimUrl(last.baseUrl))];
  }

  lemma NormalProvidersSnoc(infer: string -> bool, init: seq<Provider>, last: Provider)
    ensures NormalProviders(infer, init + [last]) ==
      AddProvider(NormalProviders(infer, init), NormalProvider(infer, last))
  {
    assert (init + [last])[..|init|] == init;
  }

  lemma ShapedProvidersSplit(ps: seq<Provider>) returns (init: seq<Provider>, last: Provider)
    requires ps != [] && ShapedProviders(ps)
    ensures ps == init + [last] && |init| < |ps| && ShapedProviders(init) && ShapedProvider(last)
    ensures forall i | 0 <= i < |init| :: init[i].id != last.id
  {
    init, last := ps[..|ps| - 1], ps[|ps| - 1];
  }

  lemma {:induction false} NormalProvidersRetrim(infer: string -> bool, ps: seq<Provider>)
    requires ShapedProviders(ps)
    ensures NormalProviders(infer, ps) == (Retrimmed(ps), [])
    decreases |ps|
  {
    if ps != [] {
      var init, last := ShapedProvidersSplit(ps);
      NormalProvidersRetrim(infer, init);
      AddProviderAgain(infer, init, last);
      NormalProvidersSnoc(infer, init, last);
    }
  }

  lemma NormalProvidersAgain(infer: string -> bool, ps: seq<Provider>)
    requires (forall p | p in ps :: ShapedProvider(p)) && DistinctProviders(ps)
    ensures NormalProviders(infer, ps) == (Retrimmed(ps), [])
  {
    NormalProvidersRetrim(infer, ps);
  }

  lemma {:induction false} RetrimmedAt(ps: seq<Provider>, id: string)
    ensures ProviderAt(Retrimmed(ps), id) == ProviderAt(ps, id)
  {
    if ps != [] && ps[|ps| - 1].id != id {
      assert Retrimmed(ps)[..|ps| - 1] == Retrimmed(ps[..|ps| - 1]);
      RetrimmedAt(ps[..|ps| - 1], id);
    }
  }

  lemma NormalModelAgain(m: Model, ps: seq<Provider>)
    requires ShapedModel(m, ps)
    ensures NormalModel(m) == m && ProviderAt(Retrimmed(ps), m.providerId).Some?
  {
    SlugsAreStripped(m.id);
    RetrimmedAt(ps, m.providerId);
  }

  lemma AddModelAgain(init: seq<Model>, last: Model, ps: seq<Provider>)
    requires ShapedModel(last, ps)
    requires forall i | 0 <= i < |init| :: init[i].id != last.id
    ensures AddModel((init, []), NormalModel(last), Retrimmed(ps)) == (init + [last], [])
  {
    NormalModelAgain(last, ps);
  }

  lemma NormalModelsSnoc(init: seq<Model>, last: Model, ps: seq<Provider>)
    ensures NormalModels(init + [last], ps) == AddModel(NormalModels(init, ps), NormalModel(last), ps)
  {
    assert (init + [last])[..|init|] == init;
  }

  lemma ShapedModelsSplit(ms: seq<Model>, ps: seq<Provider>) returns (init: seq<Model>, last: Model)
    requires ms != [] && (forall m | m in ms :: ShapedModel(m, ps)) && DistinctModels(ms)
    ensures ms == init + [last] && |init| < |ms| && ShapedModel(last, ps)
    ensures (forall m | m in init :: ShapedModel(m, ps)) && DistinctModels(init)
    ensures forall i | 0 <= i < |init| :: init[i].id != last.id
  {
    init, last := ms[..|ms| - 1], ms[|ms| - 1];
    assert last in ms && forall m | m in init :: m in ms;
  }

  lemma {:induction false} NormalModelsAgain(ms: seq<Model>, ps: seq<Provider>)
    requires (forall m | m in ms :: ShapedModel(m, ps)) && DistinctModels(ms)
    ensures NormalModels(ms, Retrimmed(ps)) == (ms, [])
    decreases |ms|
  {
    if ms != [] {
      var init, last := ShapedModelsSplit(ms, ps);
      NormalModelsAgain(init, ps);
      AddModelAgain(init, last, ps);
      NormalModelsSnoc(init, last, Retrimmed(ps));
    }
  }

  lemma {:induction false} NormalChainAgain(stage: Stage, chain: seq<string>, ms: seq<Model>)
    requires ShapedChain(ms, stage, chain)
    ensures NormalChain(stage, chain, ms) == (chain, [])
  {
    if chain != [] {
      var init, last := chain[..|chain| - 1], chain[|chain| - 1];
      ShapedInit(ms, stage, chain);
      NormalChainAgain(stage, init, ms);
    }
  }

  lemma ShapedInit(ms: seq<Model>, stage: Stage, chain: seq<string>)
    requires ShapedChain(ms, stage, chain) && chain != []
    ensures ShapedChain(ms, stage, chain[..|chain| - 1])
    ensures Member(ms, stage, chain[|chain| - 1]) && chain[|chain| - 1] !in chain[..|chain| - 1]
    ensures chain == chain[..|chain| - 1] + [chain[|chain| - 1]]
  {
    var init := chain[..|chain| - 1];
    forall i | 0 <= i < |init| ensures Member(ms, stage, init[i]) {
      assert Member(ms, stage, chain[i]);
    }
  }

  lemma {:induction false} NormalStagesAgain(stages: Chains, ms: seq<Model>, catalogue: seq<Stage>)
    requires DistinctStages(catalogue)
    requires forall i | 0 <= i < |catalogue| ::
      catalogue[i].key in stages && ShapedChain(ms, catalogue[i], stages[catalogue[i].key])
    ensures var again := NormalStages(stages, ms, catalogue);
      again.1 == [] && forall i | 0 <= i < |catalogue| ::
        catalogue[i].key in again.0 && again.0[catalogue[i].key] == stages[catalogue[i].key]
  {
    if catalogue != [] {
      var init, last := catalogue[..|catalogue| - 1], catalogue[|catalogue| - 1];
      NormalStagesAgain(stages, ms, init);
      NormalChainAgain(last, ChainOf(stages, last.key), ms);
      var again := NormalStages(stages, ms, catalogue);
      forall i | 0 <= i < |catalogue|
        ensures catalogue[i].key in again.0 && again.0[catalogue[i].key] == stages[catalogue[i].key]
      {
        if i < |init| { assert init[i] == catalogue[i]; }
      }
    }
  }

  lemma SameStages(a: Chains, b: Chains, catalogue: seq<Stage>)
    requires forall key :: key in a <==> exists i :: 0 <= i < |catalogue| && catalogue[i].key == key
    requires forall key :: key in b <==> exists i :: 0 <= i < |catalogue| && catalogue[i].key == key
    requires forall i | 0 <= i < |catalogue| ::
      catalogue[i].key in a && catalogue[i].key in b && a[catalogue[i].key] == b[catalogue[i].key]
    ensures a == b
  {
    assert a.Keys == b.Keys;
  }

  lemma ShapedStagesFixed(stages: Chains, ms: seq<Model>, catalogue: seq<Stage>)
    requires DistinctStages(catalogue) && ShapedStages(stages, ms, catalogue)
    ensures NormalStages(stages, ms, catalogue) == (stages, [])
  {
    NormalStagesShaped(stages, ms, catalogue);
    NormalStagesAgain(stages, ms, catalogue);
    SameStages(NormalStages(stages, ms, catalogue).0, stages, catalogue);
  }

  /** Normalising a normalised structure raises nothing and can only trim base URLs. */
  lemma NormalAgain(infer: string -> bool, s: Structure)
    requires Shaped(s)
    ensures Normal(infer, s) == (s.(providers := Retrimmed(s.providers)), [])
  {
    NormalProvidersAgain(infer, s.providers);
    NormalModelsAgain(s.models, s.providers);
    StageKeysDistinct();
    ShapedStagesFixed(s.stages, s.models, STAGES);
  }

  predicate UrlsTrimmed(ps: seq<Provider>) {
    forall i | 0 <= i < |ps| :: TrimUrl(ps[i].baseUrl) == ps[i].baseUrl
  }

  lemma RetrimmedIsSameIff(ps: seq<Provider>)
    ensures Retrimmed(ps) == ps <==> UrlsTrimmed(ps)
  {
    if !UrlsTrimmed(ps) {
      var i :| 0 <= i < |ps| && TrimUrl(ps[i].baseUrl) != ps[i].baseUrl;
      assert Retrimmed(ps)[i] != ps[i];
    }
  }

  /** ... and it changes nothing exactly when every base URL is trimmed already. */
  lemma NormalAgainIsSameIff(infer: string -> bool, s: Structure)
    requires Shaped(s)
    ensures Normal(infer, s).0 == s <==> UrlsTrimmed(s.providers)
  {
    NormalAgain(infer, s);
    RetrimmedIsSameIff(s.providers);
  }

  /** Loading leaves trimmed base URLs when no URL of the file hides a space behind its slashes. */
  lemma LoadedUrlsTrimmed(infer: string -> bool, file: Structure)
    requires forall p | p in file.providers :: Settled(p.baseUrl)
    ensures UrlsTrimmed(LoadStructure(infer, file).structure.providers)
  {
    NormalProvidersUrls(infer, file.providers);
  }

  /** The condition is needed: here a second trim makes a configured endpoint disappear. */
  lemma HiddenSpaceLosesTheEndpoint()
    ensures !Settled("/ /")
    ensures Strip(TrimUrl("/ /")) == "/" && TrimUrl(TrimUrl("/ /")) == ""
  {
    assert Strip("/ /") == "/ /";
    assert "/ /"[..2] == "/ " && DropSlashes("/ /") == DropSlashes("/ ") == "/ ";
    assert TrimUrl("/ /") == "/ ";
    assert StripLeft("/ ") == "/ " && "/ "[..1] == "/" && StripRight("/ ") == StripRight("/") == "/";
    assert DropSlashes("/") == DropSlashes("/"[..0]) == "";
  }

  // ---------------------------------------------------------------- promotion keeps every route

  lemma RouteId(s: Structure, stage: Option<Stage>, id: string)
    ensures Route(s, stage, id).Some? ==> Route(s, stage, id).value.id == id
  {
    var at := ModelAt(s.models, id);
  }

  lemma {:induction false} ResolvedIds(s: Structure, stage: Option<Stage>, chain: seq<string>)
    ensures var r := ResolveChain(s, stage, chain);
      forall i | 0 <= i < |r| :: r[i].id in chain && Route(s, stage, r[i].id) == Some(r[i])
  {
    if chain != [] {
      var init, last := chain[..|chain| - 1], chain[|chain| - 1];
      assert chain == init + [last];
      ResolvedIds(s, stage, init);
      RouteId(s, stage, last);
      assert last in chain && forall id | id in init :: id in chain;
      var r := ResolveChain(s, stage, chain);
      forall i | 0 <= i < |r| ensures r[i].id in chain && Route(s, stage, r[i].id) == Some(r[i]) {
        if i < |ResolveChain(s, stage, init)| { assert r[i] == ResolveChain(s, stage, init)[i]; }
      }
    }
  }

  lemma ResolvedAt(s: Structure, stage: Option<Stage>, chain: seq<string>, i: nat)
    requires i < |ResolveChain(s, stage, chain)|
    ensures var b := ResolveChain(s, stage, chain)[i]; b.id in chain && Route(s, stage, b.id) == Some(b)
  {
    ResolvedIds(s, stage, chain);
  }

  predicate DistinctIds(chain: seq<string>) { forall i, j | 0 <= i < j < |chain| :: chain[i] != chain[j] }

  /** In a chain without repetitions the routes are simply the members that can be called, in order. */
  function Routes(s: Structure, stage: Option<Stage>, chain: seq<string>): seq<Bound> {
    if chain == [] then []
    else if Route(s, stage, chain[0]).Some? then [Route(s, stage, chain[0]).value] + Routes(s, stage, chain[1..])
    else Routes(s, stage, chain[1..])
  }

  lemma {:induction false} RoutesConcat(s: Structure, stage: Option<Stage>, a: seq<string>, b: seq<string>)
    ensures Routes(s, stage, a + b) == Routes(s, stage, a) + Routes(s, stage, b)
  {
    if a == [] {
      assert a + b == b;
    } else {
      assert (a + b)[0] == a[0] && (a + b)[1..] == a[1..] + b;
      RoutesConcat(s, stage, a[1..], b);
    }
  }

  lemma {:induction false} ResolveIsRoutes(s: Structure, stage: Option<Stage>, chain: seq<string>)
    requires DistinctIds(chain)
    ensures ResolveChain(s, stage, chain) == Routes(s, stage, chain)
  {
    if chain != [] {
      var init, last := chain[..|chain| - 1], chain[|chain| - 1];
      ResolveIsRoutes(s, stage, init);
      ResolvedIds(s, stage, init);
      assert chain == init + [last];
      RoutesConcat(s, stage, init, [last]);
      assert last !in init;
    }
  }

  // ---------------------------------------------------------------- moving the first route to the front

  lemma {:induction false} WithoutAbsent(chain: seq<string>, id: string)
    requires id !in chain
    ensures Without(chain, id) == chain
  {
    if chain != [] {
      assert chain[|chain| - 1] in chain && forall x | x in chain[..|chain| - 1] :: x in chain;
      WithoutAbsent(chain[..|chain| - 1], id);
    }
  }

  lemma {:induction false} WithoutSplit(a: seq<string>, id: string, b: seq<string>)
    requires id !in a && id !in b
    ensures Without(a + [id] + b, id) == a + b
    decreases |b|
  {
    var chain := a + [id] + b;
    if b == [] {
      assert chain[..|chain| - 1] == a;
      WithoutAbsent(a, id);
    } else {
      var init, last := b[..|b| - 1], b[|b| - 1];
      assert last in b && forall x | x in init :: x in b;
      assert chain[..|chain| - 1] == a + [id] + init;
      WithoutSplit(a, id, init);
      assert a + init + [last] == a + b;
    }
  }

  /** The position of the first member that can be called. */
  lemma {:induction false} FirstRoute(s: Structure, stage: Option<Stage>, chain: seq<string>) returns (k: nat)
    requires Routes(s, stage, chain) != []
    ensures k < |chain| && chain[k] == Routes(s, stage, chain)[0].id
    ensures Routes(s, stage, chain[..k]) == []
  {
    if Route(s, stage, chain[0]).Some? {
      k := 0;
    } else {
      var rest := FirstRoute(s, stage, chain[1..]);
      k := rest + 1;
      assert chain[..k][1..] == chain[1..][..rest];
    }
  }

  lemma SplitAround(chain: seq<string>, k: nat) returns (a: seq<string>, head: string, b: seq<string>)
    requires DistinctIds(chain) && k < |chain|
    ensures a == chain[..k] && head == chain[k] && chain == a + [head] + b
    ensures head !in a && head !in b && DistinctIds([head] + (a + b))
  {
    a, head, b := chain[..k], chain[k], chain[k + 1..];
  }

  /** Moving a member to the front keeps the members and their distinctness. */
  lemma PromotedMembers(chain: seq<string>, k: nat)
    requires DistinctIds(chain) && k < |chain|
    ensures var promoted := PromotedChain(chain, chain[k]);
      DistinctIds(promoted) && promoted[0] == chain[k] && forall id :: id in promoted <==> id in chain
  {
    if k > 0 {
      var a, head, b := SplitAround(chain, k);
      WithoutSplit(a, head, b);
      assert PromotedChain(chain, head) == [head] + (a + b);
    }
  }

  /** When nothing before a member can be called, moving it to the front keeps the routes. */
  lemma PromotedRoutes(s: Structure, stage: Option<Stage>, chain: seq<string>, k: nat)
    requires DistinctIds(chain) && k < |chain| && Routes(s, stage, chain[..k]) == []
    ensures Routes(s, stage, PromotedChain(chain, chain[k])) == Routes(s, stage, chain)
  {
    if k > 0 {
      var a, head, b := SplitAround(chain, k);
      WithoutSplit(a, head, b);
      assert PromotedChain(chain, head) == [head] + (a + b);
      RoutesConcat(s, stage, a + [head], b);
      RoutesConcat(s, stage, a, [head]);
      RoutesConcat(s, stage, [head], a + b);
      RoutesConcat(s, stage, a, b);
    }
  }

  /** Promoting the first routable model may move it past members that cannot be called now, and
      so reorders the stored chain, but not the chain that is called. */
  lemma PromotionKeepsRoutes(s: Structure, stage: Option<Stage>, chain: seq<string>)
    requires DistinctIds(chain) && Routes(s, stage, chain) != []
    ensures var head := Routes(s, stage, chain)[0].id;
      var promoted := PromotedChain(chain, head);
      && DistinctIds(promoted) && Routes(s, stage, promoted) == Routes(s, stage, chain)
      && promoted[0] == head && (forall id :: id in promoted <==> id in chain)
  {
    var k := FirstRoute(s, stage, chain);
    PromotedMembers(chain, k);
    PromotedRoutes(s, stage, chain, k);
  }
}
