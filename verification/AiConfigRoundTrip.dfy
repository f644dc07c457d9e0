/** Loading, saving and loading again: what survives, and exactly when the models a stage
    really calls are the same afterwards. */
module AiConfigRoundTrip {
  import opened Options
  import opened Texts
  import opened AiConfig
  import opened AiConfigSave

  // ---------------------------------------------------------------- one promotion

  lemma {:induction false} SameTablesSameRoutes(s: Structure, t: Structure, stage: Option<Stage>, chain: seq<string>)
    requires s.models == t.models && s.providers == t.providers
    ensures ResolveChain(s, stage, chain) == ResolveChain(t, stage, chain)
  {
    if chain != [] { SameTablesSameRoutes(s, t, stage, chain[..|chain| - 1]); }
  }

  /** The head a stage derives is a member of its chain that the promotion accepts. */
  lemma HeadIsMember(s: Structure, stage: Stage)
    requires Shaped(s) && stage.key in s.stages && ShapedChain(s.models, stage, s.stages[stage.key])
    requires StageAt(stage.key) == Some(stage) && Resolve(s, stage.key) != []
    ensures var head := FirstId(Resolve(s, stage.key));
      head in s.stages[stage.key] && Member(s.models, stage, head)
  {
    var chain := s.stages[stage.key];
    ResolvedAt(s, Some(stage), chain, 0);
    var r := ResolveChain(s, Some(stage), chain);
    var i :| 0 <= i < |chain| && chain[i] == r[0].id;
    assert Member(s.models, stage, chain[i]);
  }

  predicate FrontIsHead(s: Structure, key: string) {
    Resolve(s, key) != [] ==> ChainOf(s.stages, key) != [] && ChainOf(s.stages, key)[0] == FirstId(Resolve(s, key))
  }

  lemma ShapedAt(stages: Chains, ms: seq<Model>, stage: Stage)
    requires ShapedStages(stages, ms, STAGES) && StageAt(stage.key) == Some(stage)
    ensures stage.key in stages && ShapedChain(ms, stage, stages[stage.key])
  {
    StageKeysDistinct();
    var i :| 0 <= i < |STAGES| && STAGES[i].key == stage.key;
    assert STAGES[i] == stage;
  }

  lemma ShapedUpdateIn(stages: Chains, ms: seq<Model>, catalogue: seq<Stage>, stage: Stage, chain: seq<string>)
    requires ShapedStages(stages, ms, catalogue) && ShapedChain(ms, stage, chain) && stage.key in stages
    requires forall i | 0 <= i < |catalogue| && catalogue[i].key == stage.key :: catalogue[i] == stage
    ensures ShapedStages(stages[stage.key := chain], ms, catalogue)
  {
    var more := stages[stage.key := chain];
    assert more.Keys == stages.Keys;
  }

  lemma ShapedUpdate(stages: Chains, ms: seq<Model>, stage: Stage, chain: seq<string>)
    requires ShapedStages(stages, ms, STAGES) && StageAt(stage.key) == Some(stage) && ShapedChain(ms, stage, chain)
    ensures ShapedStages(stages[stage.key := chain], ms, STAGES)
  {
    StagesAreFound();
    ShapedAt(stages, ms, stage);
    ShapedUpdateIn(stages, ms, STAGES, stage, chain);
  }

  lemma MembersKept(ms: seq<Model>, stage: Stage, chain: seq<string>, promoted: seq<string>)
    requires ShapedChain(ms, stage, chain) && DistinctIds(promoted)
    requires forall id :: id in promoted <==> id in chain
    ensures ShapedChain(ms, stage, promoted)
  {
    forall i | 0 <= i < |promoted| ensures Member(ms, stage, promoted[i]) {
      assert promoted[i] in promoted;
    }
  }

  /** Promoting the derived head of one stage: the chain stays well shaped, the same models are
      called in the same order, and the head now leads the stored chain. */
  lemma PromoteOwnHead(s: Structure, stage: Stage)
    requires Shaped(s) && StageAt(stage.key) == Some(stage)
    ensures var t := s.(stages := Promote(s.stages, s.models, stage.key, FirstId(Resolve(s, stage.key))));
      Shaped(t) && Resolve(t, stage.key) == Resolve(s, stage.key) && FrontIsHead(t, stage.key)
  {
    ShapedAt(s.stages, s.models, stage);
    if Resolve(s, stage.key) != [] {
      HeadIsMember(s, stage);
      var chain, head := s.stages[stage.key], FirstId(Resolve(s, stage.key));
      ResolveIsRoutes(s, Some(stage), chain);
      PromotionKeepsRoutes(s, Some(stage), chain);
      var promoted := PromotedChain(chain, head);
      MembersKept(s.models, stage, chain, promoted);
      ShapedUpdate(s.stages, s.models, stage, promoted);
      ResolveIsRoutes(s, Some(stage), promoted);
      SameTablesSameRoutes(s, s.(stages := s.stages[stage.key := promoted]), Some(stage), promoted);
    } else {
      assert s.(stages := s.stages) == s;
    }
  }

  lemma PromoteElsewhere(s: Structure, key: string, head: string, other: string)
    requires other != key
    ensures var t := s.(stages := Promote(s.stages, s.models, key, head));
      Resolve(t, other) == Resolve(s, other) && (FrontIsHead(s, other) ==> FrontIsHead(t, other))
  {
    var t := s.(stages := Promote(s.stages, s.models, key, head));
    SameTablesSameRoutes(s, t, StageAt(other), ChainOf(s.stages, other));
  }

  lemma PromoteKeepsAll(s: Structure, stage: Stage)
    requires Shaped(s) && StageAt(stage.key) == Some(stage)
    ensures var t := s.(stages := Promote(s.stages, s.models, stage.key, FirstId(Resolve(s, stage.key))));
      && Shaped(t) && FrontIsHead(t, stage.key) && (forall key :: Resolve(t, key) == Resolve(s, key))
      && (forall key :: FrontIsHead(s, key) ==> FrontIsHead(t, key))
  {
    PromoteOwnHead(s, stage);
    var head := FirstId(Resolve(s, stage.key));
    forall key | key != stage.key
      ensures var t := s.(stages := Promote(s.stages, s.models, stage.key, head));
        Resolve(t, key) == Resolve(s, key) && (FrontIsHead(s, key) ==> FrontIsHead(t, key))
    {
      PromoteElsewhere(s, stage.key, head, key);
    }
  }

  // ---------------------------------------------------------------- the three promotions of a save

  predicate HeadsLead(s: Structure) {
    FrontIsHead(s, TEXT_STAGE) && FrontIsHead(s, IMAGE_STAGE) && FrontIsHead(s, CONTEXT_STAGE)
  }

  lemma LegacyStages() returns (text: Stage, image: Stage, context: Stage)
    ensures StageAt(TEXT_STAGE) == Some(text) && text.key == TEXT_STAGE
    ensures StageAt(IMAGE_STAGE) == Some(image) && image.key == IMAGE_STAGE
    ensures StageAt(CONTEXT_STAGE) == Some(context) && context.key == CONTEXT_STAGE
    ensures text == STAGES[3] && image == STAGES[4] && context == STAGES[1]
  {
    StageKeysDistinct();
    text, image, context := STAGES[3], STAGES[4], STAGES[1];
  }

  lemma PromotingOwnHeadsKeepsRoutes(s: Structure)
    requires Shaped(s)
    ensures var t := s.(stages := PromoteLegacyHeads(s.stages, s.models, DerivedHeads(s)));
      Shaped(t) && HeadsLead(t) && forall key :: Resolve(t, key) == Resolve(s, key)
  {
    var text, image, context := LegacyStages();
    var s1 := s.(stages := Promote(s.stages, s.models, TEXT_STAGE, FirstId(Resolve(s, TEXT_STAGE))));
    PromoteKeepsAll(s, text);
    var s2 := s1.(stages := Promote(s1.stages, s1.models, IMAGE_STAGE, FirstId(Resolve(s1, IMAGE_STAGE))));
    PromoteKeepsAll(s1, image);
    PromoteKeepsAll(s2, context);
  }

  lemma PromoteLeadingHead(s: Structure, key: string)
    requires FrontIsHead(s, key) && key in s.stages && Strip(FirstId(Resolve(s, key))) == FirstId(Resolve(s, key))
    ensures Promote(s.stages, s.models, key, FirstId(Resolve(s, key))) == s.stages
  {
    assert s.stages[key := s.stages[key]] == s.stages;
  }

  lemma PromotingLeadingHeads(s: Structure)
    requires Shaped(s) && HeadsLead(s)
    ensures PromoteLegacyHeads(s.stages, s.models, DerivedHeads(s)) == s.stages
  {
    var text, image, context := LegacyStages();
    ShapedAt(s.stages, s.models, text);
    ShapedAt(s.stages, s.models, image);
    ShapedAt(s.stages, s.models, context);
    HeadsAreStripped(s, text);
    HeadsAreStripped(s, image);
    HeadsAreStripped(s, context);
    PromoteLeadingHead(s, TEXT_STAGE);
    PromoteLeadingHead(s, IMAGE_STAGE);
    PromoteLeadingHead(s, CONTEXT_STAGE);
  }

  lemma HeadsAreStripped(s: Structure, stage: Stage)
    requires Shaped(s) && StageAt(stage.key) == Some(stage)
    ensures Strip(FirstId(Resolve(s, stage.key))) == FirstId(Resolve(s, stage.key))
  {
    ShapedAt(s.stages, s.models, stage);
    if Resolve(s, stage.key) != [] { HeadIsMember(s, stage); }
  }

  // ---------------------------------------------------------------- a second trim

  /** The routes of a structure whose URLs are trimmed again: the same models, each with its trimmed
      URL, unless that leaves nothing to call. */
  lemma RouteRetrimmed(s: Structure, t: Structure, stage: Option<Stage>, id: string)
    requires t.models == s.models && t.providers == Retrimmed(s.providers)
    ensures match Route(t, stage, id)
      case Some(b) => Route(s, stage, id).Some? &&
        b == Route(s, stage, id).value.(baseUrl := TrimUrl(Route(s, stage, id).value.baseUrl))
      case None => Route(s, stage, id).Some? ==>
        TrimUrl(Route(s, stage, id).value.baseUrl) != Route(s, stage, id).value.baseUrl
  {
    var at := ModelAt(s.models, id);
    if at.Some? {
      var m := s.models[at.value];
      RetrimmedAt(s.providers, m.providerId);
      var j := ProviderAt(s.providers, m.providerId);
      if j.Some? { StripOfTrim(s.providers[j.value].baseUrl); }
    }
  }

  lemma StripOfTrim(url: string)
    ensures Strip(url) == "" ==> TrimUrl(url) == "" && Strip(TrimUrl(url)) == ""
  {
    if Strip(url) == "" { assert DropSlashes("") == ""; }
  }

  lemma {:induction false} SameRoutesSameChain(s: Structure, t: Structure, stage: Option<Stage>, chain: seq<string>)
    requires forall id | id in chain :: Route(t, stage, id) == Route(s, stage, id)
    ensures ResolveChain(t, stage, chain) == ResolveChain(s, stage, chain)
  {
    if chain != [] {
      var init, last := chain[..|chain| - 1], chain[|chain| - 1];
      assert last in chain && forall id | id in init :: id in chain;
      SameRoutesSameChain(s, t, stage, init);
    }
  }

  predicate TrimmedRoutes(routes: seq<Bound>) {
    forall i | 0 <= i < |routes| :: TrimUrl(routes[i].baseUrl) == routes[i].baseUrl
  }

  lemma {:induction false} ChainRetrimmed(s: Structure, t: Structure, stage: Option<Stage>, chain: seq<string>)
    requires t.models == s.models && t.providers == Retrimmed(s.providers)
    requires DistinctIds(chain) && TrimmedRoutes(ResolveChain(s, stage, chain))
    ensures ResolveChain(t, stage, chain) == ResolveChain(s, stage, chain)
  {
    forall id | id in chain ensures Route(t, stage, id) == Route(s, stage, id) {
      RouteRetrimmed(s, t, stage, id);
      if Route(s, stage, id).Some? { RouteIsResolved(s, stage, chain, id); }
    }
    SameRoutesSameChain(s, t, stage, chain);
  }

  /** Every member that can be called is in the resolved chain. */
  lemma {:induction false} RouteIsResolved(s: Structure, stage: Option<Stage>, chain: seq<string>, id: string)
    requires id in chain && Route(s, stage, id).Some?
    ensures Route(s, stage, id).value in ResolveChain(s, stage, chain)
  {
    var init, last := chain[..|chain| - 1], chain[|chain| - 1];
    assert chain == init + [last];
    RouteId(s, stage, id);
    ResolvedIds(s, stage, init);
    if id in init {
      RouteIsResolved(s, stage, init, id);
    } else {
      assert id == last && ResolveChain(s, stage, chain) == ResolveChain(s, stage, init) + [Route(s, stage, id).value];
    }
  }

  /** The URLs of the models a stage really calls: a caller can read them off before saving. */
  ghost predicate RoutedUrlsTrimmed(s: Structure) {
    forall key :: TrimmedRoutes(Resolve(s, key))
  }

  lemma ChainsAreDistinct(s: Structure, key: string)
    requires Shaped(s)
    ensures DistinctIds(ChainOf(s.stages, key))
  {
    if key in s.stages {
      var i :| 0 <= i < |STAGES| && STAGES[i].key == key;
      assert ShapedChain(s.models, STAGES[i], s.stages[key]);
    }
  }

  lemma RetrimKeepsRoutes(s: Structure)
    requires Shaped(s) && RoutedUrlsTrimmed(s)
    ensures forall key :: Resolve(s.(providers := Retrimmed(s.providers)), key) == Resolve(s, key)
  {
    forall key ensures Resolve(s.(providers := Retrimmed(s.providers)), key) == Resolve(s, key) {
      ChainsAreDistinct(s, key);
      assert TrimmedRoutes(Resolve(s, key));
      ChainRetrimmed(s, s.(providers := Retrimmed(s.providers)), StageAt(key), ChainOf(s.stages, key));
    }
  }

  lemma KeptRoutesAreTrimmed(s: Structure, t: Structure, key: string)
    requires t.models == s.models && t.providers == Retrimmed(s.providers) && Resolve(t, key) == Resolve(s, key)
    ensures TrimmedRoutes(Resolve(s, key))
  {
    var r, stage := Resolve(s, key), StageAt(key);
    forall i | 0 <= i < |r| ensures TrimUrl(r[i].baseUrl) == r[i].baseUrl {
      RouteRetrimmed(s, t, stage, r[i].id);
      ResolvedAt(s, stage, ChainOf(s.stages, key), i);
      ResolvedAt(t, stage, ChainOf(t.stages, key), i);
    }
  }

  // ---------------------------------------------------------------- the theorems

  lemma RetrimmedShaped(ps: seq<Provider>)
    requires (forall p | p in ps :: ShapedProvider(p)) && DistinctProviders(ps)
    ensures (forall p | p in Retrimmed(ps) :: ShapedProvider(p)) && DistinctProviders(Retrimmed(ps))
  {
    forall p | p in Retrimmed(ps) ensures ShapedProvider(p) {
      var i :| 0 <= i < |ps| && Retrimmed(ps)[i] == p;
      assert ps[i] in ps;
    }
  }

  lemma RetrimShaped(s: Structure)
    requires Shaped(s)
    ensures Shaped(s.(providers := Retrimmed(s.providers)))
  {
    RetrimmedShaped(s.providers);
    forall m | m in s.models ensures ShapedModel(m, Retrimmed(s.providers)) {
      RetrimmedAt(s.providers, m.providerId);
    }
  }

  /** What a save of a just-loaded configuration stores: it never raises. */
  lemma SavedIs(infer: string -> bool, file: Structure)
    ensures var s := LoadStructure(infer, file).structure;
      var r := s.(providers := Retrimmed(s.providers));
      Shaped(s) && Shaped(r) && SaveStructure(infer, LoadStructure(infer, file)) ==
        Some(var p := r.(stages := PromoteLegacyHeads(r.stages, r.models, DerivedHeads(s))); Headed(p, DerivedHeads(p)))
  {
    NormalIsShaped(infer, file);
    NormalAgain(infer, LoadStructure(infer, file).structure);
    RetrimShaped(LoadStructure(infer, file).structure);
  }

  lemma SavedKeepsTrimmedRoutes(infer: string -> bool, file: Structure)
    requires RoutedUrlsTrimmed(LoadStructure(infer, file).structure)
    ensures SaveStructure(infer, LoadStructure(infer, file)).Some?
    ensures var c, saved := LoadStructure(infer, file), SaveStructure(infer, LoadStructure(infer, file)).value;
      saved.heads == c.heads && forall key :: Resolve(saved.structure, key) == Resolve(c.structure, key)
  {
    var s := LoadStructure(infer, file).structure;
    var r := s.(providers := Retrimmed(s.providers));
    SavedIs(infer, file);
    RetrimKeepsRoutes(s);
    assert DerivedHeads(r) == DerivedHeads(s);
    PromotingOwnHeadsKeepsRoutes(r);
  }

  /** Saving what was just loaded never raises, and it keeps the models every stage calls, with their
      order and endpoints, exactly when the URLs those models are called with are trimmed. */
  lemma StructureKeepsRoutesIff(infer: string -> bool, file: Structure)
    ensures var c, saved := LoadStructure(infer, file), SaveStructure(infer, LoadStructure(infer, file));
      && saved.Some? && saved.value.structure.models == c.structure.models
      && ((forall key :: Resolve(saved.value.structure, key) == Resolve(c.structure, key)) <==>
         RoutedUrlsTrimmed(c.structure))
      && (RoutedUrlsTrimmed(c.structure) ==> saved.value.heads == c.heads)
  {
    var s := LoadStructure(infer, file).structure;
    SavedIs(infer, file);
    var saved := SaveStructure(infer, LoadStructure(infer, file)).value.structure;
    if RoutedUrlsTrimmed(s) {
      SavedKeepsTrimmedRoutes(infer, file);
    } else if forall key :: Resolve(saved, key) == Resolve(s, key) {
      forall key ensures TrimmedRoutes(Resolve(s, key)) { KeptRoutesAreTrimmed(s, saved, key); }
    }
  }

  /** When no URL of the file hides a space behind its closing slashes, one load and save reaches a
      fixpoint: providers, models and heads are kept, and loading or saving again changes nothing. */
  lemma StructureIsAFixpoint(infer: string -> bool, file: Structure)
    requires forall p | p in file.providers :: Settled(p.baseUrl)
    ensures var c, saved := LoadStructure(infer, file), SaveStructure(infer, LoadStructure(infer, file));
      && saved.Some? && saved.value.structure.providers == c.structure.providers && saved.value.heads == c.heads
      && LoadStructure(infer, saved.value.structure) == saved.value && SaveStructure(infer, saved.value) == saved
  {
    var c := LoadStructure(infer, file);
    var s := c.structure;
    SavedIs(infer, file);
    LoadedUrlsTrimmed(infer, file);
    RetrimmedIsSameIff(s.providers);
    assert s.(providers := Retrimmed(s.providers)) == s;
    PromotingOwnHeadsKeepsRoutes(s);
    var saved := SaveStructure(infer, c).value;
    NormalAgainIsSameIff(infer, saved.structure);
    NormalAgain(infer, saved.structure);
    PromotingLeadingHeads(saved.structure);
    assert saved.structure.(stages := saved.structure.stages) == saved.structure;
  }
}
