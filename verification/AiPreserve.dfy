/** A v1-shaped save names at most one model for a stage; the chain on disk is kept behind it when it
    starts with that model. */
module AiPreserve {
  import opened Options
  import opened AiConfig
  import opened AiConfigSave

  /** The members of a stored chain that are still models. */
  function Known(previous: seq<string>, ms: seq<Model>): seq<string> {
    if previous == [] then []
    else if ModelAt(ms, previous[|previous| - 1]).Some?
    then Known(previous[..|previous| - 1], ms) + [previous[|previous| - 1]]
    else Known(previous[..|previous| - 1], ms)
  }

  /** The stored chain stands when it starts with the rebuilt one's model, or when nothing was rebuilt. */
  function KeptChain(chain: seq<string>, previous: seq<string>): seq<string> {
    if previous == [] then chain
    else if chain == [] then previous
    else if previous[0] == chain[0] && |previous| > |chain| then previous
    else chain
  }

  /** Every rebuilt stage against the chain on disk. */
  function Preserved(stages: Chains, existing: Chains, ms: seq<Model>): (merged: Chains)
    ensures merged.Keys == stages.Keys
    ensures forall k | k in stages :: merged[k] == KeptChain(stages[k], Known(ChainOf(existing, k), ms))
  {
    map k | k in stages :: KeptChain(stages[k], Known(ChainOf(existing, k), ms))
  }

  ghost predicate DoneUpTo(merged: Chains, stages: Chains, goal: Chains, keys: seq<string>, n: nat)
    requires n <= |keys| && stages.Keys == goal.Keys == merged.Keys
  {
    forall k | k in stages :: merged[k] == if k in keys[..n] then goal[k] else stages[k]
  }

  lemma OneMoreDone(merged: Chains, stages: Chains, goal: Chains, keys: seq<string>, n: nat)
    requires n < |keys| && stages.Keys == goal.Keys == merged.Keys && keys[n] in stages
    requires DoneUpTo(merged, stages, goal, keys, n)
    ensures DoneUpTo(merged[keys[n] := goal[keys[n]]], stages, goal, keys, n + 1)
  {
    assert keys[..n + 1] == keys[..n] + [keys[n]];
  }

  lemma NotYetDone(merged: Chains, stages: Chains, goal: Chains, keys: seq<string>, n: nat)
    requires n < |keys| && stages.Keys == goal.Keys == merged.Keys && keys[n] in stages
    requires DistinctIds(keys) && DoneUpTo(merged, stages, goal, keys, n)
    ensures merged[keys[n]] == stages[keys[n]]
  {
    assert keys[n] !in keys[..n];
  }

  lemma AllDone(merged: Chains, stages: Chains, goal: Chains, keys: seq<string>)
    requires stages.Keys == goal.Keys == merged.Keys && forall k | k in stages :: k in keys
    requires DoneUpTo(merged, stages, goal, keys, |keys|)
    ensures merged == goal
  {
    assert keys[..|keys|] == keys;
  }

  /** One stage of the loop below. */
  method PreserveChain(chain: seq<string>, previous: seq<string>) returns (kept: seq<string>)
    ensures kept == KeptChain(chain, previous)
  {
    kept := chain;
    if previous != [] {
      if chain == [] || (previous[0] == chain[0] && |previous| > |chain|) {
        kept := previous;
      }
    }
  }

  /** Every rebuilt stage in the order of the table's keys. */
  method PreserveStageChains(stages: Chains, keys: seq<string>, existing: Chains, ms: seq<Model>)
    returns (merged: Chains)
    requires DistinctIds(keys) && forall k :: k in stages <==> k in keys
    ensures merged == Preserved(stages, existing, ms)
  {
    merged := stages;
    ghost var goal := Preserved(stages, existing, ms);
    var n := 0;
    while n < |keys|
      invariant 0 <= n <= |keys| && merged.Keys == stages.Keys == goal.Keys
      invariant DoneUpTo(merged, stages, goal, keys, n)
    {
      var key := keys[n];
      OneMoreDone(merged, stages, goal, keys, n);
      NotYetDone(merged, stages, goal, keys, n);
      var kept := PreserveChain(merged[key], Known(ChainOf(existing, key), ms));
      merged := merged[key := kept];
      n := n + 1;
    }
    AllDone(merged, stages, goal, keys);
  }

  lemma {:induction false} KnownMembers(chain: seq<string>, ms: seq<Model>)
    requires forall id | id in chain :: ModelAt(ms, id).Some?
    ensures Known(chain, ms) == chain
  {
    if chain != [] {
      var init, last := chain[..|chain| - 1], chain[|chain| - 1];
      assert last in chain && forall id | id in init :: id in chain;
      KnownMembers(init, ms);
      assert chain == init + [last];
    }
  }

  /** A chain on disk is led by the model the rebuild named, if it named one. */
  predicate Led(previous: seq<string>, named: Option<string>) {
    named.Some? ==> previous != [] && previous[0] == named.value
  }

  function AsChain(named: Option<string>): seq<string> { if named.Some? then [named.value] else [] }

  /** A chain on disk comes through whole exactly when it is led by the named model. */
  lemma KeptIsWholeIff(named: Option<string>, previous: seq<string>)
    ensures KeptChain(AsChain(named), previous) == previous <==> Led(previous, named)
  {
    if named.Some? && |previous| == 1 && previous[0] == named.value { assert previous == [named.value]; }
  }
}
