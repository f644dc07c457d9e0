/** What loading and saving a file give, said of the structure alone: the v1 mirror that is read off it, the
    error a save raises, and what the saved structure is made of. */
module AiFileAnswers {
  import opened Options
  import opened AiConfig
  import opened AiConfigSave
  import opened AiMigration
  import opened AiMigrationRoundTrip
  import opened AiLegacySave
  import opened AiConfigFile
  import opened AiResolve
  import opened AiLegacyAnswers

  /** The entry a model is mirrored as: its own fields with the endpoint of the last provider of its id, if there
      is one. */
  ghost predicate Mirrors(s: Structure, i: nat, e: Option<Entry>)
    requires i < |s.models|
  {
    var m := s.models[i];
    if exists j: nat :: LastOf(s.providers, m.providerId, j) then
      e.Some? && exists j: nat :: LastOf(s.providers, m.providerId, j) && MirrorOf(m, s.providers[j], e.value)
    else e == None
  }

  ghost predicate LastOf(ps: seq<Provider>, id: string, j: nat) {
    j < |ps| && ps[j].id == id && forall k | j < k < |ps| :: ps[k].id != id
  }

  predicate MirrorOf(m: Model, p: Provider, e: Entry) {
    && e.id == m.id && e.title == (if m.title == "" then m.id else m.title) && e.model == m.model
    && e.text == m.text && e.image == m.image
    && e.baseUrl == p.baseUrl && e.apiKey == p.apiKey && e.timeout == p.timeout
  }

  lemma ViewEntryMirrors(s: Structure, i: nat)
    requires i < |s.models|
    ensures Mirrors(s, i, ViewEntry(s.models[i], s.providers))
  {
    var id := s.models[i].providerId;
    ProviderAtIsLast(s.providers, id);
    forall j: nat | LastOf(s.providers, id, j) ensures ProviderAt(s.providers, id) == Some(j) {
      LastProvider(s.providers, j);
    }
    if ProviderAt(s.providers, id).Some? { assert LastOf(s.providers, id, ProviderAt(s.providers, id).value); }
  }

  lemma ViewGrows(s: Structure, i: nat)
    requires i < |s.models|
    ensures ViewModels(s.models[..i + 1], s.providers) ==
            ViewModels(s.models[..i], s.providers) +
              match ViewEntry(s.models[i], s.providers) { case None => [] case Some(e) => [e] }
  {
    assert s.models[..i + 1][..i] == s.models[..i];
  }

  /** The mirrored list, model by model: each model with a provider adds its entry, in the order of the models. */
  lemma ViewIs(s: Structure, i: nat, e: Option<Entry>)
    requires i < |s.models| && Mirrors(s, i, e)
    ensures ViewModels(s.models[..0], s.providers) == [] && View(s) == ViewModels(s.models[..|s.models|], s.providers)
    ensures ViewModels(s.models[..i + 1], s.providers) ==
            ViewModels(s.models[..i], s.providers) + if e.Some? then [e.value] else []
  {
    assert s.models[..|s.models|] == s.models;
    ViewEntryMirrors(s, i);
    ViewGrows(s, i);
    OneMirror(s, i, e, ViewEntry(s.models[i], s.providers));
  }

  lemma OneMirror(s: Structure, i: nat, e: Option<Entry>, f: Option<Entry>)
    requires i < |s.models| && Mirrors(s, i, e) && Mirrors(s, i, f)
    ensures e == f
  {
    if e.Some? {
      var j: nat :| LastOf(s.providers, s.models[i].providerId, j) && MirrorOf(s.models[i], s.providers[j], e.value);
      var k: nat :| LastOf(s.providers, s.models[i].providerId, k) && MirrorOf(s.models[i], s.providers[k], f.value);
      assert !(j < k) && !(k < j);
    }
  }

  /** The first model a stage calls gives its id and its endpoint; a stage that calls none leaves the id empty and
      the endpoint as given. */
  ghost predicate LedBy(called: seq<Bound>, given: V1Provider, id: string, p: V1Provider) {
    if called == [] then id == "" && p == given
    else
      && id == called[0].id
      && p == V1Provider(called[0].baseUrl, called[0].apiKey, called[0].model, called[0].timeout)
  }

  /** The v1 mirror of a structure. */
  ghost predicate MirrorsStructure(s: Structure, text: V1Provider, image: V1Provider, v: V1Config) {
    && v.entries == View(s)
    && LedBy(Resolve(s, "batch_text_recognition"), text, v.heads.text, v.text)
    && LedBy(Resolve(s, "batch_image_recognition"), image, v.heads.image, v.image)
    && (exists p :: LedBy(Resolve(s, "context_resolution"), text, v.heads.context, p))
  }

  lemma ViewMirrors(s: Structure, text: V1Provider, image: V1Provider)
    ensures MirrorsStructure(s, text, image, DerivedView(s, text, image))
  {
    assert LedBy(Resolve(s, "context_resolution"), text, DerivedHeads(s).context,
                 HeadProvider(s, CONTEXT_STAGE, text));
  }

  /** Loading normalises the structure and mirrors it, whatever problems it has. */
  lemma LoadIs(infer: string -> bool, file: StoredFile)
    ensures var c := Load(infer, file);
      && c.structure == Normal(infer, file.structure).0
      && MirrorsStructure(c.structure, file.text, file.image, c.v1)
  {
    ViewMirrors(Normal(infer, file.structure).0, file.text, file.image);
  }

  /** A configuration without models is saved from its v1 fields.  One with models is refused exactly when its
      normalisation reports a problem; else its providers and models are the normalised ones, its chains the
      normalised ones with the v1 heads promoted, and its mirror is read off the result. */
  lemma SaveIs(naming: Naming, infer: string -> bool, disk: StoredFile, c: Config)
    ensures var saved, (s, problems) := Save(naming, infer, disk, c), Normal(infer, c.structure);
      if c.structure.models == [] then saved == Some(SaveV1(naming, infer, disk.structure.stages, c.v1))
      else if problems != [] then saved == None
      else
        && saved.Some?
        && saved.value.structure ==
           Structure(s.providers, s.models, PromoteLegacyHeads(s.stages, s.models, c.v1.heads))
        && MirrorsStructure(saved.value.structure, TidyProvider(c.v1.text), TidyProvider(c.v1.image), saved.value.v1)
  {
    var (s, problems) := Normal(infer, c.structure);
    if c.structure.models != [] && problems == [] {
      ViewMirrors(s.(stages := PromoteLegacyHeads(s.stages, s.models, c.v1.heads)), TidyProvider(c.v1.text),
                  TidyProvider(c.v1.image));
    }
  }
}
