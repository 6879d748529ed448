/** The model registry: an alias index over a model list, and name resolution (crates/agent/src/lib.rs). */
module ModelRegistry {
  import opened Text

  datatype ProviderKind =
    | Deepseek | NvidiaNim | Openai | Openrouter | Novita | Fireworks | Sglang | Vllm | Ollama
    | Agnes | SenseNova | Moonshot | Custom
  {
    function AsStr(): string {
      match this
      case Deepseek => "deepseek"
      case NvidiaNim => "nvidia-nim"
      case Openai => "openai"
      case Openrouter => "openrouter"
      case Novita => "novita"
      case Fireworks => "fireworks"
      case Sglang => "sglang"
      case Vllm => "vllm"
      case Ollama => "ollama"
      case Agnes => "agnes"
      case SenseNova => "sensenova"
      case Moonshot => "moonshot"
      case Custom => "custom"
    }
  }

  datatype ModelInfo = ModelInfo(
    id: string,
    provider: ProviderKind,
    aliases: seq<string>,
    supportsTools: bool,
    supportsReasoning: bool)

  datatype ModelResolution = ModelResolution(
    requested: Option<string>,
    resolved: ModelInfo,
    usedFallback: bool,
    fallbackChain: seq<string>)

  datatype Registry = Registry(models: seq<ModelInfo>, aliasMap: map<string, nat>)

  function Normalize(value: string): string {
    Lower(Trim(value))
  }

  /** `m` answers to the normalized name `key` through its id or one of its first `count` aliases. */
  predicate HasNameUpTo(m: ModelInfo, count: nat, key: string)
    requires count <= |m.aliases|
  {
    Normalize(m.id) == key || exists j :: 0 <= j < count && Normalize(m.aliases[j]) == key
  }

  predicate ModelMatches(m: ModelInfo, requested: string) {
    HasName(m, Normalize(requested))
  }

  predicate HasName(m: ModelInfo, key: string) {
    HasNameUpTo(m, |m.aliases|, key)
  }

  function PreserveRequestedIdCase(m: ModelInfo, requested: string): ModelInfo {
    if Lower(m.id) == Lower(Trim(requested)) then m.(id := Trim(requested)) else m
  }

  function OfProvider(provider: ProviderKind): ModelInfo -> bool {
    (m: ModelInfo) => m.provider == provider
  }

  function Named(key: string): ModelInfo -> bool {
    (m: ModelInfo) => HasName(m, key)
  }

  function NamedAt(provider: ProviderKind, key: string): ModelInfo -> bool {
    (m: ModelInfo) => m.provider == provider && HasName(m, key)
  }

  /** `i` is the least index of a model that satisfies `p`. */
  ghost predicate IsLeast(models: seq<ModelInfo>, p: ModelInfo -> bool, i: nat) {
    i < |models| && p(models[i]) && forall j :: 0 <= j < i ==> !p(models[j])
  }

  function FindFirst(models: seq<ModelInfo>, p: ModelInfo -> bool): (r: Option<nat>)
    ensures r.Some? ==> IsLeast(models, p, r.value)
    ensures r.None? ==> forall j :: 0 <= j < |models| ==> !p(models[j])
  {
    if models == [] then None
    else if p(models[0]) then Some(0)
    else match FindFirst(models[1..], p)
      case None =>
        assert forall j :: 1 <= j < |models| ==> models[j] == models[1..][j - 1];
        None
      case Some(i) =>
        assert forall j :: 1 <= j < |models| ==> models[j] == models[1..][j - 1];
        Some(i + 1)
  }

  /** The index is exact: it knows a name exactly when some model answers to it, and then it holds the
      least such model. */
  ghost predicate AliasesIndexed(r: Registry) {
    forall key: string ::
      && (key in r.aliasMap <==> exists i :: 0 <= i < |r.models| && HasName(r.models[i], key))
      && (key in r.aliasMap ==> IsLeast(r.models, Named(key), r.aliasMap[key]))
  }

  /** The index while model `idx` is being entered: all earlier models, and its first `count` aliases. */
  ghost predicate PartlyIndexed(models: seq<ModelInfo>, aliasMap: map<string, nat>, idx: nat, count: nat)
    requires idx < |models| && count <= |models[idx].aliases|
  {
    forall key: string ::
      && (key in aliasMap <==>
          (exists i :: 0 <= i < idx && HasName(models[i], key)) || HasNameUpTo(models[idx], count, key))
      && (key in aliasMap ==>
            && aliasMap[key] <= idx
            && (forall i :: 0 <= i < aliasMap[key] ==> !HasName(models[i], key))
            && (aliasMap[key] < idx ==> HasName(models[aliasMap[key]], key)))
  }

  ghost predicate IndexedBelow(models: seq<ModelInfo>, aliasMap: map<string, nat>, idx: nat)
    requires idx <= |models|
  {
    forall key: string ::
      && (key in aliasMap <==> exists i :: 0 <= i < idx && HasName(models[i], key))
      && (key in aliasMap ==>
            aliasMap[key] < idx && IsLeast(models, Named(key), aliasMap[key]))
  }

  function OrInsert(aliasMap: map<string, nat>, key: string, idx: nat): map<string, nat> {
    if key in aliasMap then aliasMap else aliasMap[key := idx]
  }

  lemma EnterId(models: seq<ModelInfo>, aliasMap: map<string, nat>, idx: nat)
    requires idx < |models| && IndexedBelow(models, aliasMap, idx)
    ensures PartlyIndexed(models, OrInsert(aliasMap, Normalize(models[idx].id), idx), idx, 0)
  {
    hide Normalize;
  }

  lemma EnterAlias(models: seq<ModelInfo>, aliasMap: map<string, nat>, idx: nat, count: nat)
    requires idx < |models| && count < |models[idx].aliases|
    requires PartlyIndexed(models, aliasMap, idx, count)
    ensures PartlyIndexed(models, OrInsert(aliasMap, Normalize(models[idx].aliases[count]), idx), idx, count + 1)
  {
    hide Normalize;
    var m := models[idx];
    forall key: string
      ensures HasNameUpTo(m, count + 1, key) <==> HasNameUpTo(m, count, key) || Normalize(m.aliases[count]) == key
    {
    }
  }

  lemma ModelEntered(models: seq<ModelInfo>, aliasMap: map<string, nat>, idx: nat)
    requires idx < |models| && PartlyIndexed(models, aliasMap, idx, |models[idx].aliases|)
    ensures IndexedBelow(models, aliasMap, idx + 1)
  {
    hide HasNameUpTo;
  }

  /** `ModelRegistry::new`: the first model to claim a name keeps it. */
  method New(models: seq<ModelInfo>) returns (r: Registry)
    ensures r.models == models && AliasesIndexed(r) && InRange(r)
  {
    hide Normalize, HasName, HasNameUpTo;
    var aliasMap: map<string, nat> := map[];
    for idx := 0 to |models|
      invariant IndexedBelow(models, aliasMap, idx)
    {
      EnterId(models, aliasMap, idx);
      aliasMap := OrInsert(aliasMap, Normalize(models[idx].id), idx);
      for a := 0 to |models[idx].aliases|
        invariant PartlyIndexed(models, aliasMap, idx, a)
      {
        EnterAlias(models, aliasMap, idx, a);
        aliasMap := OrInsert(aliasMap, Normalize(models[idx].aliases[a]), idx);
      }
      ModelEntered(models, aliasMap, idx);
    }
    r := Registry(models, aliasMap);
    IndexIsInRange(r);
  }

  const BUILT_IN := ModelInfo("deepseek-v4-pro", Deepseek, [], true, true)

  function Fallback(
    r: Registry, requested: Option<string>, hint: Option<ProviderKind>, chain: seq<string>): ModelResolution
  {
    var provider := if hint.Some? then hint.value else Deepseek;
    var chain := chain + ["provider_default:" + provider.AsStr()];
    var idx := FindFirst(r.models, OfProvider(provider));
    if idx.Some? then ModelResolution(requested, r.models[idx.value], true, chain)
    else
      ModelResolution(requested, if r.models == [] then BUILT_IN else r.models[0], true,
                      chain + ["global_default:deepseek-v4-pro"])
  }

  function Resolve(r: Registry, requested: Option<string>, hint: Option<ProviderKind>): ModelResolution
    requires InRange(r)
  {
    if requested.None? then Fallback(r, requested, hint, [])
    else
      var name := requested.value;
      var chain := ["requested:" + name];
      if hint == Some(Ollama) then
        ModelResolution(requested, ModelInfo(Trim(name), Ollama, [], true, false), false, chain)
      else
        var hinted :=
          if hint.Some? then FindFirst(r.models, NamedAt(hint.value, Normalize(name))) else None;
        if hinted.Some? then
          ModelResolution(requested, PreserveRequestedIdCase(r.models[hinted.value], name), false, chain)
        else if Normalize(name) in r.aliasMap then
          ModelResolution(requested, PreserveRequestedIdCase(r.models[r.aliasMap[Normalize(name)]], name), false, chain)
        else Fallback(r, requested, hint, chain)
  }

  /** The model a name stands for: the first match of the hinted provider, else the first match. */
  ghost predicate StandsFor(models: seq<ModelInfo>, name: string, hint: Option<ProviderKind>, i: nat) {
    if hint.Some? && exists j :: 0 <= j < |models| && models[j].provider == hint.value && ModelMatches(models[j], name)
    then IsLeast(models, NamedAt(hint.value, Normalize(name)), i)
    else IsLeast(models, Named(Normalize(name)), i)
  }

  /** Same model, but for the letter case of its id. */
  ghost predicate SameButCase(a: ModelInfo, b: ModelInfo) {
    a.(id := b.id) == b && Lower(a.id) == Lower(b.id)
  }

  ghost predicate InRange(r: Registry) {
    forall key :: key in r.aliasMap ==> r.aliasMap[key] < |r.models|
  }

  lemma IndexIsInRange(r: Registry)
    requires AliasesIndexed(r)
    ensures InRange(r)
  {
    hide HasName;
  }

  lemma LookupIsLeast(r: Registry, key: string)
    requires AliasesIndexed(r)
    ensures key in r.aliasMap <==> exists i :: 0 <= i < |r.models| && HasName(r.models[i], key)
    ensures key in r.aliasMap ==> IsLeast(r.models, Named(key), r.aliasMap[key])
  {
    hide HasName;
  }

  /** Resolution agrees with a linear scan over the models. A name resolves without falling back
      exactly when some model matches it, or the hint is Ollama, which takes any name as it is. Otherwise
      it resolves to the model it stands for, changed at most in the case of its id, and never to another
      casing than the model's or the request's. */
  lemma ResolveAgreesWithScan(r: Registry, name: string, hint: Option<ProviderKind>)
    requires InRange(r) && AliasesIndexed(r)
    ensures var res := Resolve(r, Some(name), hint);
            && (!res.usedFallback <==>
                hint == Some(Ollama) || exists i :: 0 <= i < |r.models| && ModelMatches(r.models[i], name))
            && (hint == Some(Ollama) ==> res.resolved == ModelInfo(Trim(name), Ollama, [], true, false))
            && (!res.usedFallback && hint != Some(Ollama) ==>
                  exists i: nat :: StandsFor(r.models, name, hint, i)
                                   && SameButCase(res.resolved, r.models[i])
                                   && (res.resolved.id == r.models[i].id || res.resolved.id == Trim(name)))
  {
    hide HasName, Normalize, AliasesIndexed, Trim, Lower, Fallback;
    var key := Normalize(name);
    LookupIsLeast(r, key);
    FallbackFallsBack(r, Some(name), hint, ["requested:" + name]);
    var hinted := if hint.Some? then FindFirst(r.models, NamedAt(hint.value, key)) else None;
    if hinted.Some? {
      assert StandsFor(r.models, name, hint, hinted.value);
    } else if key in r.aliasMap {
      assert StandsFor(r.models, name, hint, r.aliasMap[key]);
    }
  }

  lemma FallbackFallsBack(r: Registry, requested: Option<string>, hint: Option<ProviderKind>, chain: seq<string>)
    ensures Fallback(r, requested, hint, chain).usedFallback
  {
  }

  /** Without a match, or without a name, the hinted provider's first model answers, else the first
      model of all, else the built-in one. */
  lemma FallbackIsFirstOfProvider(r: Registry, requested: Option<string>, hint: Option<ProviderKind>)
    requires InRange(r) && Resolve(r, requested, hint).usedFallback
    ensures var res := Resolve(r, requested, hint);
            var provider := if hint.Some? then hint.value else Deepseek;
            && res.requested == requested
            && (forall i: nat :: IsLeast(r.models, OfProvider(provider), i) ==> res.resolved == r.models[i])
            && ((forall i :: 0 <= i < |r.models| ==> r.models[i].provider != provider) ==>
                  res.resolved == if r.models == [] then ModelInfo("deepseek-v4-pro", Deepseek, [], true, true)
                                  else r.models[0])
  {
    hide HasName, Normalize, Trim, Lower, ProviderKind.AsStr;
  }

  /** Names that differ only in letter case or padding resolve alike, but for the casing of an id. */
  lemma ResolveIgnoresCaseAndPadding(r: Registry, a: string, b: string, hint: Option<ProviderKind>)
    requires InRange(r) && Lower(Trim(a)) == Lower(Trim(b))
    ensures Resolve(r, Some(a), hint).usedFallback == Resolve(r, Some(b), hint).usedFallback
    ensures SameButCase(Resolve(r, Some(a), hint).resolved, Resolve(r, Some(b), hint).resolved)
  {
    hide HasName, Trim, Lower, ProviderKind.AsStr;
    assert Normalize(a) == Normalize(b);
  }

  lemma StandsForOne(models: seq<ModelInfo>, name: string, hint: Option<ProviderKind>, i: nat, j: nat)
    requires StandsFor(models, name, hint, i) && StandsFor(models, name, hint, j)
    ensures i == j
  {
    hide HasName, Normalize, ModelMatches;
  }

  /** A request that differs from the id of the model it stands for only in letter case comes back in its own casing;
      any other request, by alias say, comes back as the model. */
  lemma RequestedCasingComesBack(r: Registry, name: string, hint: Option<ProviderKind>, i: nat)
    requires InRange(r) && AliasesIndexed(r) && hint != Some(Ollama)
    requires StandsFor(r.models, name, hint, i)
    ensures i < |r.models|
    ensures var m := r.models[i];
            Resolve(r, Some(name), hint).resolved
            == m.(id := if Lower(m.id) == Lower(Trim(name)) then Trim(name) else m.id)
  {
    hide HasName, Normalize, AliasesIndexed, Trim, Lower, Fallback;
    var key := Normalize(name);
    LookupIsLeast(r, key);
    var hinted := if hint.Some? then FindFirst(r.models, NamedAt(hint.value, key)) else None;
    if hinted.Some? {
      StandsForOne(r.models, name, hint, i, hinted.value);
    } else {
      assert HasName(r.models[i], key);
      StandsForOne(r.models, name, hint, i, r.aliasMap[key]);
    }
  }

  /** The chain a resolution reports: what was asked for, then each default it fell back on. */
  lemma ResolutionChain(r: Registry, requested: Option<string>, hint: Option<ProviderKind>)
    requires InRange(r)
    ensures var res := Resolve(r, requested, hint);
            var asked := if requested.Some? then ["requested:" + requested.value] else [];
            var provider := if hint.Some? then hint.value else Deepseek;
            var served := exists i :: 0 <= i < |r.models| && r.models[i].provider == provider;
            res.fallbackChain
            == if !res.usedFallback then asked
               else asked + ["provider_default:" + provider.AsStr()]
                    + if served then [] else ["global_default:deepseek-v4-pro"]
  {
    hide HasName, Normalize, Trim, Lower, ProviderKind.AsStr;
  }

  lemma ProviderNames()
    ensures Deepseek.AsStr() == "deepseek" && NvidiaNim.AsStr() == "nvidia-nim" && Openai.AsStr() == "openai"
    ensures Openrouter.AsStr() == "openrouter" && Novita.AsStr() == "novita" && Fireworks.AsStr() == "fireworks"
    ensures Sglang.AsStr() == "sglang" && Vllm.AsStr() == "vllm" && Ollama.AsStr() == "ollama"
    ensures Agnes.AsStr() == "agnes" && SenseNova.AsStr() == "sensenova" && Moonshot.AsStr() == "moonshot"
    ensures Custom.AsStr() == "custom"
  {
  }
}
