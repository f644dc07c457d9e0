/** What normalisation makes of each raw item, said of the raw lists alone: it keeps the item, reports a
    problem or passes over it, by what stands before it; the results keep the order. */
module AiNormal {
  import opened Options
  import opened Texts
  import opened AiConfig

  ghost predicate LetterOrDigit(c: char) { 'a' <= c <= 'z' || 'A' <= c <= 'Z' || '0' <= c <= '9' }

  /** One to 64 letters, digits, dots, underscores and dashes, a letter or digit first. */
  ghost predicate IsSlug(s: string) {
    && 1 <= |s| <= 64 && LetterOrDigit(s[0])
    && forall i | 0 <= i < |s| :: LetterOrDigit(s[i]) || s[i] == '.' || s[i] == '_' || s[i] == '-'
  }

  lemma SlugIs(s: string)
    ensures ValidSlug(s) <==> IsSlug(s)
  {
  }

  /** A trimmed URL is the stripped one without its closing slashes. */
  lemma TrimUrlIs(s: string) returns (n: nat)
    ensures n <= |Strip(s)| && TrimUrl(s) == Strip(s)[..n]
    ensures forall i | n <= i < |Strip(s)| :: Strip(s)[i] == '/'
    ensures n == 0 || Strip(s)[n - 1] != '/'
  {
    var t := Strip(s);
    n := |t|;
    assert t[..n] == t;
    while n > 0 && t[n - 1] == '/'
      invariant n <= |t| && DropSlashes(t[..n]) == DropSlashes(t)
      invariant forall i | n <= i < |t| :: t[i] == '/'
    {
      assert t[..n][..n - 1] == t[..n - 1];
      n := n - 1;
    }
  }

  /** What becomes of one item. */
  datatype Fate<+T> = Kept(item: T) | Dropped(problem: Problem) | PassedOver

  /** The kept items and the problems, each in the order of the fates. */
  ghost function Sift<T>(fates: seq<Fate<T>>): (seq<T>, seq<Problem>) {
    if fates == [] then ([], [])
    else
      var (items, problems) := Sift(fates[..|fates| - 1]);
      match fates[|fates| - 1]
      case Kept(item) => (items + [item], problems)
      case Dropped(problem) => (items, problems + [problem])
      case PassedOver => (items, problems)
  }

  lemma SiftSnoc<T>(fates: seq<Fate<T>>, last: Fate<T>)
    ensures Sift(fates + [last]) ==
            match last
            case Kept(item) => (Sift(fates).0 + [item], Sift(fates).1)
            case Dropped(problem) => (Sift(fates).0, Sift(fates).1 + [problem])
            case PassedOver => Sift(fates)
  {
    assert (fates + [last])[..|fates|] == fates;
  }

  // ---------------------------------------------------------------- providers

  /** An earlier provider has taken the id. */
  ghost predicate GivenBefore(raw: seq<Provider>, n: nat, id: string)
    requires n <= |raw|
  {
    exists k :: 0 <= k < n && Strip(raw[k].id) == id
  }

  /** A provider is kept under a valid id that no provider before it has, and loses only outer spaces,
      closing slashes and what was left open. */
  ghost function ProviderFate(infer: string -> bool, raw: seq<Provider>, i: nat): Fate<Provider>
    requires i < |raw|
  {
    var p, url := raw[i], TrimUrl(raw[i].baseUrl);
    if !IsSlug(Strip(p.id)) then Dropped(BadProviderId)
    else if GivenBefore(raw, i, Strip(p.id)) then Dropped(DuplicateProvider)
    else Kept(Provider(
      Strip(p.id), Strip(p.title), url, Strip(p.apiKey), if p.timeout == 0 then 60 else p.timeout, p.enabled,
      if p.appendV1.Some? then p.appendV1 else Some(infer(url))))
  }

  ghost function ProviderFates(infer: string -> bool, raw: seq<Provider>): seq<Fate<Provider>> {
    seq(|raw|, i requires 0 <= i < |raw| => ProviderFate(infer, raw, i))
  }

  lemma ProviderFatesSnoc(infer: string -> bool, raw: seq<Provider>, p: Provider)
    ensures ProviderFates(infer, raw + [p]) == ProviderFates(infer, raw) + [ProviderFate(infer, raw + [p], |raw|)]
  {
    forall i | 0 <= i < |raw| ensures ProviderFate(infer, raw + [p], i) == ProviderFate(infer, raw, i) {
      GivenStays(raw, p, i, Strip(raw[i].id));
    }
  }

  lemma GivenStays(raw: seq<Provider>, p: Provider, n: nat, id: string)
    requires n <= |raw|
    ensures GivenBefore(raw + [p], n, id) <==> GivenBefore(raw, n, id)
  {
    var all := raw + [p];
    assert forall k | 0 <= k < n :: all[k] == raw[k];
    if GivenBefore(raw, n, id) {
      var k :| 0 <= k < n && Strip(raw[k].id) == id;
      assert Strip(all[k].id) == id;
    }
  }

  lemma GivenSnoc(raw: seq<Provider>, p: Provider, id: string)
    ensures GivenBefore(raw + [p], |raw| + 1, id) <==> GivenBefore(raw, |raw|, id) || Strip(p.id) == id
  {
    GivenStays(raw, p, |raw|, id);
    assert (raw + [p])[|raw|] == p;
    if GivenBefore(raw + [p], |raw|, id) {
      var k :| 0 <= k < |raw| && Strip((raw + [p])[k].id) == id;
    }
  }

  lemma AddedIsGiven(infer: string -> bool, done: (seq<Provider>, seq<Problem>), p: Provider, id: string)
    requires IsSlug(id)
    ensures ProviderAt(AddProvider(done, NormalProvider(infer, p)).0, id).Some? <==>
            ProviderAt(done.0, id).Some? || Strip(p.id) == id
  {
    SlugIs(id);
    var added := AddProvider(done, NormalProvider(infer, p)).0;
    if added != done.0 {
      assert added[..|added| - 1] == done.0;
    }
  }

  /** A valid id is taken by the kept providers exactly when some raw provider has it. */
  lemma {:induction false} ProviderTakenIff(infer: string -> bool, raw: seq<Provider>, id: string)
    requires IsSlug(id)
    ensures ProviderAt(NormalProviders(infer, raw).0, id).Some? <==> GivenBefore(raw, |raw|, id)
  {
    if raw != [] {
      var init, p := raw[..|raw| - 1], raw[|raw| - 1];
      ProviderTakenIff(infer, init, id);
      assert raw == init + [p];
      GivenSnoc(init, p, id);
      AddedIsGiven(infer, NormalProviders(infer, init), p, id);
    }
  }

  lemma {:induction false} ProvidersExactly(infer: string -> bool, raw: seq<Provider>)
    ensures NormalProviders(infer, raw) == Sift(ProviderFates(infer, raw))
  {
    if raw != [] {
      var init, p := raw[..|raw| - 1], raw[|raw| - 1];
      ProvidersExactly(infer, init);
      assert raw == init + [p];
      ProviderFatesSnoc(infer, init, p);
      SiftSnoc(ProviderFates(infer, init), ProviderFate(infer, raw, |init|));
      SlugIs(Strip(p.id));
      if IsSlug(Strip(p.id)) {
        ProviderTakenIff(infer, init, Strip(p.id));
        GivenStays(init, p, |init|, Strip(p.id));
      }
    }
  }

  // ---------------------------------------------------------------- models

  ghost predicate KnownProvider(ps: seq<Provider>, id: string) {
    exists j :: 0 <= j < |ps| && ps[j].id == id
  }

  /** An earlier model of the same id, of a provider that exists, has taken the id. */
  ghost predicate TakenBefore(raw: seq<Model>, ps: seq<Provider>, n: nat, id: string)
    requires n <= |raw|
  {
    exists k :: 0 <= k < n && Strip(raw[k].id) == id && KnownProvider(ps, Strip(raw[k].providerId))
  }

  /** A model is kept under a valid id that is not taken, of a provider that exists; it loses only outer
      spaces and gets its id for a title it lacks. */
  ghost function ModelFate(raw: seq<Model>, ps: seq<Provider>, i: nat): Fate<Model>
    requires i < |raw|
  {
    var m := raw[i];
    if !IsSlug(Strip(m.id)) then Dropped(BadModelId)
    else if TakenBefore(raw, ps, i, Strip(m.id)) then Dropped(DuplicateModel)
    else if !KnownProvider(ps, Strip(m.providerId)) then Dropped(UnknownProvider)
    else Kept(Model(
      Strip(m.id), Strip(m.providerId), Strip(m.model), if Strip(m.title) == "" then Strip(m.id) else Strip(m.title),
      m.text, m.image, m.enabled))
  }

  ghost function ModelFates(raw: seq<Model>, ps: seq<Provider>): seq<Fate<Model>> {
    seq(|raw|, i requires 0 <= i < |raw| => ModelFate(raw, ps, i))
  }

  lemma TakenStays(raw: seq<Model>, ps: seq<Provider>, m: Model, n: nat, id: string)
    requires n <= |raw|
    ensures TakenBefore(raw + [m], ps, n, id) <==> TakenBefore(raw, ps, n, id)
  {
    var all := raw + [m];
    assert forall k | 0 <= k < n :: all[k] == raw[k];
    if TakenBefore(raw, ps, n, id) {
      var k :| 0 <= k < n && Strip(raw[k].id) == id && KnownProvider(ps, Strip(raw[k].providerId));
      assert Strip(all[k].id) == id;
    }
  }

  lemma ModelFatesSnoc(raw: seq<Model>, ps: seq<Provider>, m: Model)
    ensures ModelFates(raw + [m], ps) == ModelFates(raw, ps) + [ModelFate(raw + [m], ps, |raw|)]
  {
    forall i | 0 <= i < |raw| ensures ModelFate(raw + [m], ps, i) == ModelFate(raw, ps, i) {
      TakenStays(raw, ps, m, i, Strip(raw[i].id));
    }
  }

  lemma TakenSnoc(raw: seq<Model>, ps: seq<Provider>, m: Model, id: string)
    ensures TakenBefore(raw + [m], ps, |raw| + 1, id) <==>
            TakenBefore(raw, ps, |raw|, id) || (Strip(m.id) == id && KnownProvider(ps, Strip(m.providerId)))
  {
    TakenStays(raw, ps, m, |raw|, id);
    assert (raw + [m])[|raw|] == m;
    if TakenBefore(raw + [m], ps, |raw|, id) {
      var k :| 0 <= k < |raw| && Strip((raw + [m])[k].id) == id &&
        KnownProvider(ps, Strip((raw + [m])[k].providerId));
    }
  }

  lemma AddedIsTaken(done: (seq<Model>, seq<Problem>), m: Model, ps: seq<Provider>, id: string)
    requires IsSlug(id)
    ensures ModelAt(AddModel(done, NormalModel(m), ps).0, id).Some? <==>
            ModelAt(done.0, id).Some? || (Strip(m.id) == id && KnownProvider(ps, Strip(m.providerId)))
  {
    SlugIs(id);
    var added := AddModel(done, NormalModel(m), ps).0;
    if added != done.0 {
      assert added[..|added| - 1] == done.0;
    }
  }

  lemma {:induction false} ModelTakenIff(raw: seq<Model>, ps: seq<Provider>, id: string)
    requires IsSlug(id)
    ensures ModelAt(NormalModels(raw, ps).0, id).Some? <==> TakenBefore(raw, ps, |raw|, id)
  {
    if raw != [] {
      var init, m := raw[..|raw| - 1], raw[|raw| - 1];
      ModelTakenIff(init, ps, id);
      assert raw == init + [m];
      TakenSnoc(init, ps, m, id);
      AddedIsTaken(NormalModels(init, ps), m, ps, id);
    }
  }

  lemma {:induction false} ModelsExactly(raw: seq<Model>, ps: seq<Provider>)
    ensures NormalModels(raw, ps) == Sift(ModelFates(raw, ps))
  {
    if raw != [] {
      var init, m := raw[..|raw| - 1], raw[|raw| - 1];
      ModelsExactly(init, ps);
      assert raw == init + [m];
      ModelFatesSnoc(init, ps, m);
      SiftSnoc(ModelFates(init, ps), ModelFate(raw, ps, |init|));
      SlugIs(Strip(m.id));
      if IsSlug(Strip(m.id)) {
        ModelTakenIff(init, ps, Strip(m.id));
        TakenStays(init, ps, m, |init|, Strip(m.id));
      }
    }
  }

  // ---------------------------------------------------------------- stage chains

  /** The model the chains mean by an id: the last one of that id. */
  ghost predicate Means(ms: seq<Model>, id: string, i: nat) {
    i < |ms| && ms[i].id == id && forall k | i < k < |ms| :: ms[k].id != id
  }

  ghost predicate Exists(ms: seq<Model>, id: string) {
    exists i: nat :: Means(ms, id, i)
  }

  ghost predicate Fits(stage: Stage, ms: seq<Model>, id: string) {
    exists i: nat :: Means(ms, id, i) && (stage.needsText ==> ms[i].text) && (stage.needsImage ==> ms[i].image)
  }

  /** A chain keeps the id of a model that serves the stage, at its first place; it reports a model that
      does not serve it, and passes over ids that are blank, repeated or unknown. */
  ghost function MemberFate(stage: Stage, raw: seq<string>, ms: seq<Model>, i: nat): Fate<string>
    requires i < |raw|
  {
    var id := Strip(raw[i]);
    if id == "" || !Exists(ms, id) then PassedOver
    else if !Fits(stage, ms, id) then Dropped(CannotServe)
    else if exists k :: 0 <= k < i && Strip(raw[k]) == id then PassedOver
    else Kept(id)
  }

  ghost function MemberFates(stage: Stage, raw: seq<string>, ms: seq<Model>): seq<Fate<string>> {
    seq(|raw|, i requires 0 <= i < |raw| => MemberFate(stage, raw, ms, i))
  }

  lemma MemberFatesSnoc(stage: Stage, raw: seq<string>, ms: seq<Model>, id: string)
    ensures MemberFates(stage, raw + [id], ms) ==
            MemberFates(stage, raw, ms) + [MemberFate(stage, raw + [id], ms, |raw|)]
  {
    var all := raw + [id];
    forall i | 0 <= i < |raw| ensures MemberFate(stage, all, ms, i) == MemberFate(stage, raw, ms, i) {
      assert forall k | 0 <= k <= i :: all[k] == raw[k];
    }
  }

  lemma {:induction false} ModelAtMeans(ms: seq<Model>, id: string)
    ensures ModelAt(ms, id).Some? ==> Means(ms, id, ModelAt(ms, id).value)
  {
    if ms != [] && ms[|ms| - 1].id != id { ModelAtMeans(ms[..|ms| - 1], id); }
  }

  lemma FitsIff(stage: Stage, ms: seq<Model>, id: string)
    ensures ModelAt(ms, id).Some? <==> Exists(ms, id)
    ensures ModelAt(ms, id).Some? ==> (StageSupports(stage, ms[ModelAt(ms, id).value]) <==> Fits(stage, ms, id))
  {
    ModelAtMeans(ms, id);
    if ModelAt(ms, id).Some? {
      forall i: nat | Means(ms, id, i) ensures i == ModelAt(ms, id).value {
      }
    }
  }

  lemma {:induction false} InChainIff(stage: Stage, raw: seq<string>, ms: seq<Model>, id: string)
    requires id != "" && Fits(stage, ms, id)
    ensures id in NormalChain(stage, raw, ms).0 <==> exists k :: 0 <= k < |raw| && Strip(raw[k]) == id
  {
    if raw != [] {
      var init, last := raw[..|raw| - 1], raw[|raw| - 1];
      InChainIff(stage, init, ms, id);
      FitsIff(stage, ms, id);
      if Strip(last) == id {
        assert raw[|init|] == last;
      } else {
        assert forall k | 0 <= k < |init| :: raw[k] == init[k];
      }
    }
  }

  lemma {:induction false} ChainExactly(stage: Stage, raw: seq<string>, ms: seq<Model>)
    ensures NormalChain(stage, raw, ms) == Sift(MemberFates(stage, raw, ms))
  {
    if raw != [] {
      var init, last := raw[..|raw| - 1], raw[|raw| - 1];
      ChainExactly(stage, init, ms);
      assert raw == init + [last];
      MemberFatesSnoc(stage, init, ms, last);
      SiftSnoc(MemberFates(stage, init, ms), MemberFate(stage, raw, ms, |init|));
      FitsIff(stage, ms, Strip(last));
      OnlyFittingMembers(stage, init, ms, Strip(last));
      if Strip(last) != "" && Fits(stage, ms, Strip(last)) {
        InChainIff(stage, init, ms, Strip(last));
        assert forall k | 0 <= k < |init| :: raw[k] == init[k];
      }
    }
  }

  lemma {:induction false} OnlyFittingMembers(stage: Stage, raw: seq<string>, ms: seq<Model>, id: string)
    ensures id in NormalChain(stage, raw, ms).0 ==> Fits(stage, ms, id)
  {
    if raw != [] {
      OnlyFittingMembers(stage, raw[..|raw| - 1], ms, id);
      FitsIff(stage, ms, Strip(raw[|raw| - 1]));
    }
  }

  /** One stage stands in the table with the chain that normalisation makes of its own raw chain. */
  ghost predicate StageIs(stages: Chains, raw: Chains, ms: seq<Model>, stage: Stage) {
    && stage.key in stages
    && stages[stage.key] == Sift(MemberFates(stage, if stage.key in raw then raw[stage.key] else [], ms)).0
  }

  /** The chains of a catalogue: exactly its stages, each with its own chain. */
  lemma {:induction false} StagesExactly(raw: Chains, ms: seq<Model>, catalogue: seq<Stage>)
    requires forall i, j | 0 <= i < j < |catalogue| :: catalogue[i].key != catalogue[j].key
    ensures forall key :: key in NormalStages(raw, ms, catalogue).0 ==> exists s :: s in catalogue && s.key == key
    ensures forall s | s in catalogue :: StageIs(NormalStages(raw, ms, catalogue).0, raw, ms, s)
  {
    if catalogue != [] {
      var init, last := catalogue[..|catalogue| - 1], catalogue[|catalogue| - 1];
      StagesExactly(raw, ms, init);
      ChainExactly(last, ChainOf(raw, last.key), ms);
      var done, stages := NormalStages(raw, ms, init).0, NormalStages(raw, ms, catalogue).0;
      assert stages == done[last.key := NormalChain(last, ChainOf(raw, last.key), ms).0];
      forall s | s in catalogue ensures StageIs(stages, raw, ms, s) {
        assert s == last || s in init;
      }
      forall key | key in stages ensures exists s :: s in catalogue && s.key == key {
        if key == last.key {
          assert last in catalogue;
        } else {
          var s :| s in init && s.key == key;
          assert s in catalogue;
        }
      }
    }
  }

  lemma FiveStages()
    ensures STAGES == [
      Stage("authoritative_recognition", true, true), Stage("context_resolution", true, false),
      Stage("strategy_alert", true, false), Stage("batch_text_recognition", true, false),
      Stage("batch_image_recognition", false, true)]
    ensures forall i, j | 0 <= i < j < |STAGES| :: STAGES[i].key != STAGES[j].key
  {
    assert |"authoritative_recognition"| == 25 && |"context_resolution"| == 18 && |"strategy_alert"| == 14;
    assert |"batch_text_recognition"| == 22 && |"batch_image_recognition"| == 23;
  }

  /** A table of exactly the five stages, each with its own chain. */
  ghost predicate FiveChains(stages: Chains, raw: Chains, ms: seq<Model>) {
    && (forall key :: key in stages ==>
          key in {"authoritative_recognition", "context_resolution", "strategy_alert", "batch_text_recognition",
                  "batch_image_recognition"})
    && StageIs(stages, raw, ms, Stage("authoritative_recognition", true, true))
    && StageIs(stages, raw, ms, Stage("context_resolution", true, false))
    && StageIs(stages, raw, ms, Stage("strategy_alert", true, false))
    && StageIs(stages, raw, ms, Stage("batch_text_recognition", true, false))
    && StageIs(stages, raw, ms, Stage("batch_image_recognition", false, true))
  }

  lemma ChainsAreFive(raw: Chains, ms: seq<Model>)
    ensures FiveChains(NormalStages(raw, ms, STAGES).0, raw, ms)
  {
    FiveStages();
    StagesExactly(raw, ms, STAGES);
    assert STAGES[0] in STAGES && STAGES[1] in STAGES && STAGES[2] in STAGES && STAGES[3] in STAGES;
    assert STAGES[4] in STAGES;
  }

  /** A whole structure: its providers, its models against the kept providers, and the five stages against
      the kept models; the problems of the providers come first, then those of the models. */
  lemma NormalExactly(infer: string -> bool, raw: Structure)
    ensures var (s, problems) := Normal(infer, raw);
      && s.providers == Sift(ProviderFates(infer, raw.providers)).0
      && s.models == Sift(ModelFates(raw.models, s.providers)).0
      && FiveChains(s.stages, raw.stages, s.models)
      && Sift(ProviderFates(infer, raw.providers)).1 + Sift(ModelFates(raw.models, s.providers)).1 <= problems
  {
    var ps := NormalProviders(infer, raw.providers);
    var ms := NormalModels(raw.models, ps.0);
    ProvidersExactly(infer, raw.providers);
    ModelsExactly(raw.models, ps.0);
    ChainsAreFive(raw.stages, ms.0);
    NormalIs(infer, raw, ps, ms, NormalStages(raw.stages, ms.0, STAGES));
  }

  lemma NormalIs(infer: string -> bool, raw: Structure, ps: (seq<Provider>, seq<Problem>),
                 ms: (seq<Model>, seq<Problem>), stages: (Chains, seq<Problem>))
    requires ps == NormalProviders(infer, raw.providers) && ms == NormalModels(raw.models, ps.0)
    requires stages == NormalStages(raw.stages, ms.0, STAGES)
    ensures Normal(infer, raw) == (Structure(ps.0, ms.0, stages.0), ps.1 + ms.1 + stages.1)
  {
  }
}
