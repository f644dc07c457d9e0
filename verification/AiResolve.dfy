/** Which models a stage calls, said of the configuration alone: the chain, the flags and the
    last model and provider of each id. */
module AiResolve {
  import opened Options
  import opened Texts
  import opened AiConfig

  ghost predicate NonBlank(s: string) {
    exists k :: 0 <= k < |s| && !IsSpace(s[k])
  }

  /** The modalities a stage needs; a key outside the catalogue needs none. */
  ghost predicate CanServeStage(key: string, text: bool, image: bool) {
    && (key == "authoritative_recognition" ==> text && image)
    && (key == "context_resolution" ==> text)
    && (key == "strategy_alert" ==> text)
    && (key == "batch_text_recognition" ==> text)
    && (key == "batch_image_recognition" ==> image)
  }

  ghost predicate InChain(s: Structure, key: string, id: string) {
    key in s.stages && id in s.stages[key]
  }

  /** `b` is what the stage calls for model `i` of provider `j`: both are the last of their id, both are
      enabled, the model can serve the stage, there is an endpoint and a model name. */
  ghost predicate Calls(s: Structure, key: string, b: Bound, i: nat, j: nat) {
    && i < |s.models| && (forall k | i < k < |s.models| :: s.models[k].id != s.models[i].id)
    && j < |s.providers| && s.providers[j].id == s.models[i].providerId
    && (forall k | j < k < |s.providers| :: s.providers[k].id != s.providers[j].id)
    && s.models[i].enabled && s.providers[j].enabled
    && CanServeStage(key, s.models[i].text, s.models[i].image)
    && NonBlank(s.providers[j].baseUrl) && NonBlank(s.models[i].model)
    && b.id == s.models[i].id
    && b.title == (if s.models[i].title == "" then s.models[i].id else s.models[i].title)
    && b.model == s.models[i].model && b.text == s.models[i].text && b.image == s.models[i].image
    && b.baseUrl == s.providers[j].baseUrl && b.apiKey == s.providers[j].apiKey
    && b.timeout == s.providers[j].timeout && b.appendV1 == s.providers[j].appendV1
  }

  lemma {:induction false} LastModel(ms: seq<Model>, i: nat)
    requires i < |ms| && forall k | i < k < |ms| :: ms[k].id != ms[i].id
    ensures ModelAt(ms, ms[i].id) == Some(i)
  {
    if i < |ms| - 1 { LastModel(ms[..|ms| - 1], i); }
  }

  lemma {:induction false} ModelAtIsLast(ms: seq<Model>, id: string)
    ensures ModelAt(ms, id).Some? ==> forall k | ModelAt(ms, id).value < k < |ms| :: ms[k].id != id
  {
    if ms != [] && ms[|ms| - 1].id != id { ModelAtIsLast(ms[..|ms| - 1], id); }
  }

  lemma {:induction false} LastProvider(ps: seq<Provider>, j: nat)
    requires j < |ps| && forall k | j < k < |ps| :: ps[k].id != ps[j].id
    ensures ProviderAt(ps, ps[j].id) == Some(j)
  {
    if j < |ps| - 1 { LastProvider(ps[..|ps| - 1], j); }
  }

  lemma {:induction false} ProviderAtIsLast(ps: seq<Provider>, id: string)
    ensures ProviderAt(ps, id).Some? ==> forall k | ProviderAt(ps, id).value < k < |ps| :: ps[k].id != id
  {
    if ps != [] && ps[|ps| - 1].id != id { ProviderAtIsLast(ps[..|ps| - 1], id); }
  }

  lemma StageNeeds(key: string, m: Model)
    ensures (StageAt(key).Some? ==> StageSupports(StageAt(key).value, m)) <==> CanServeStage(key, m.text, m.image)
  {
    assert STAGES[0].key == "authoritative_recognition" && STAGES[1].key == "context_resolution";
    assert STAGES[2].key == "strategy_alert" && STAGES[3].key == "batch_text_recognition";
    assert STAGES[4].key == "batch_image_recognition";
    assert |STAGES[0].key| == 25 && |STAGES[1].key| == 18 && |STAGES[2].key| == 14 && |STAGES[3].key| == 22;
    assert |STAGES[4].key| == 23;
  }

  lemma RoutedIsCalled(s: Structure, key: string, id: string)
    requires Route(s, StageAt(key), id).Some?
    ensures var b := Route(s, StageAt(key), id).value;
      b.id == id && exists i: nat, j: nat :: Calls(s, key, b, i, j)
  {
    var b := Route(s, StageAt(key), id).value;
    var i := ModelAt(s.models, id).value;
    var j := ProviderAt(s.providers, s.models[i].providerId).value;
    ModelAtIsLast(s.models, id);
    ProviderAtIsLast(s.providers, s.models[i].providerId);
    StageNeeds(key, s.models[i]);
    StripIsEmptyIff(b.baseUrl);
    StripIsEmptyIff(b.model);
    assert Calls(s, key, b, i, j);
  }

  lemma CalledIsRouted(s: Structure, key: string, b: Bound, i: nat, j: nat)
    requires Calls(s, key, b, i, j)
    ensures Route(s, StageAt(key), b.id) == Some(b)
  {
    LastModel(s.models, i);
    LastProvider(s.providers, j);
    StageNeeds(key, s.models[i]);
    StripIsEmptyIff(b.baseUrl);
    StripIsEmptyIff(b.model);
  }

  /** One member of a chain, called or not. */
  lemma RoutedExactly(s: Structure, key: string, id: string, b: Bound)
    ensures Route(s, StageAt(key), id) == Some(b) <==> b.id == id && exists i: nat, j: nat :: Calls(s, key, b, i, j)
  {
    if Route(s, StageAt(key), id) == Some(b) {
      RoutedIsCalled(s, key, id);
    }
    forall i: nat, j: nat | Calls(s, key, b, i, j) ensures Route(s, StageAt(key), b.id) == Some(b) {
      CalledIsRouted(s, key, b, i, j);
    }
  }

  ghost predicate MembersAre(s: Structure, stage: Option<Stage>, chain: seq<string>, r: seq<Bound>) {
    forall b :: b in r <==> b.id in chain && Route(s, stage, b.id) == Some(b)
  }

  /** Somewhere in the chain one id stands, and the other has not come yet. */
  ghost predicate ComesFirst(chain: seq<string>, id: string, later: string) {
    exists p :: 0 <= p < |chain| && chain[p] == id && later !in chain[..p + 1]
  }

  ghost predicate FirstsInOrder(chain: seq<string>, r: seq<Bound>) {
    forall x, y | 0 <= x < y < |r| :: ComesFirst(chain, r[x].id, r[y].id)
  }

  /** One turn of the resolution: the chain's next id is called, called already, or not callable. */
  ghost predicate Turn(s: Structure, stage: Option<Stage>, id: string, done: seq<Bound>, r: seq<Bound>) {
    if Route(s, stage, id).Some? && (forall i | 0 <= i < |done| :: done[i].id != id)
    then r == done + [Route(s, stage, id).value] else r == done
  }

  lemma MembersOneMore(s: Structure, stage: Option<Stage>, init: seq<string>, id: string, done: seq<Bound>,
                       r: seq<Bound>)
    requires MembersAre(s, stage, init, done) && Turn(s, stage, id, done, r)
    ensures MembersAre(s, stage, init + [id], r)
  {
    if Route(s, stage, id).Some? && exists i :: 0 <= i < |done| && done[i].id == id {
      var i :| 0 <= i < |done| && done[i].id == id;
      assert done[i] in done;
    }
  }

  lemma FirstStays(chain: seq<string>, next: string, id: string, later: string)
    requires ComesFirst(chain, id, later)
    ensures ComesFirst(chain + [next], id, later)
  {
    var p :| 0 <= p < |chain| && chain[p] == id && later !in chain[..p + 1];
    assert (chain + [next])[p] == id && (chain + [next])[..p + 1] == chain[..p + 1];
  }

  lemma NewcomerIsLater(chain: seq<string>, id: string, next: string)
    requires id in chain && next !in chain
    ensures ComesFirst(chain + [next], id, next)
  {
    var p :| 0 <= p < |chain| && chain[p] == id;
    assert (chain + [next])[p] == id && (chain + [next])[..p + 1] == chain[..p + 1];
  }

  lemma OrderOneMore(s: Structure, stage: Option<Stage>, init: seq<string>, id: string, done: seq<Bound>,
                     r: seq<Bound>)
    requires MembersAre(s, stage, init, done) && Turn(s, stage, id, done, r) && FirstsInOrder(init, done)
    ensures FirstsInOrder(init + [id], r)
  {
    forall x, y | 0 <= x < y < |r| ensures ComesFirst(init + [id], r[x].id, r[y].id) {
      assert done[x] in done && r[x] == done[x];
      if y < |done| {
        FirstStays(init, id, r[x].id, r[y].id);
      } else {
        var b := Route(s, stage, id).value;
        assert b.id == id && (id in init ==> b in done);
        NewcomerIsLater(init, r[x].id, id);
      }
    }
  }

  lemma {:induction false} ChainResolved(s: Structure, stage: Option<Stage>, chain: seq<string>)
    ensures MembersAre(s, stage, chain, ResolveChain(s, stage, chain))
    ensures FirstsInOrder(chain, ResolveChain(s, stage, chain))
  {
    if chain != [] {
      var init, id := chain[..|chain| - 1], chain[|chain| - 1];
      var done, r := ResolveChain(s, stage, init), ResolveChain(s, stage, chain);
      ChainResolved(s, stage, init);
      assert chain == init + [id] && Turn(s, stage, id, done, r);
      MembersOneMore(s, stage, init, id, done, r);
      OrderOneMore(s, stage, init, id, done, r);
    }
  }

  lemma OrderedAreDistinct(chain: seq<string>, r: seq<Bound>)
    requires FirstsInOrder(chain, r)
    ensures forall x, y | 0 <= x < y < |r| :: r[x].id != r[y].id
  {
    forall x, y | 0 <= x < y < |r| ensures r[x].id != r[y].id {
      assert ComesFirst(chain, r[x].id, r[y].id);
      var p :| 0 <= p < |chain| && chain[p] == r[x].id && r[y].id !in chain[..p + 1];
      assert chain[..p + 1][p] == r[x].id;
    }
  }

  /** A stage calls exactly the models of its chain that can be called, as the last model and the last
      provider of their ids describe them, each once and in the order the chain first names them. */
  lemma ResolvedExactly(s: Structure, key: string)
    ensures var r := Resolve(s, key);
      && (forall b :: b in r <==> InChain(s, key, b.id) && exists i: nat, j: nat :: Calls(s, key, b, i, j))
      && (forall x, y | 0 <= x < y < |r| :: r[x].id != r[y].id)
      && FirstsInOrder(if key in s.stages then s.stages[key] else [], r)
  {
    var r, chain := Resolve(s, key), ChainOf(s.stages, key);
    ChainResolved(s, StageAt(key), chain);
    OrderedAreDistinct(chain, r);
    forall b ensures b in r <==> InChain(s, key, b.id) && exists i: nat, j: nat :: Calls(s, key, b, i, j) {
      RoutedExactly(s, key, b.id, b);
    }
  }
}
