/**
 The service check that filters the configured models: workflows/src/config.rs and the `check`
 methods of workflows/src/providers.
 */
module Services {
  import opened Wrappers
  import opened Sequences
  import opened Config

  /** How one requested model fares: it is kept, it is skipped, or the whole check breaks off. */
  datatype Verdict = Good | Bad | Broken

  /** The outside world: the optional services, the API keys, and every single probe. */
  datatype Services = Services(
    optional: bool,
    ready: Provider -> bool,
    verdict: (Provider, nat, Model) -> Verdict)

  datatype ServiceError =
    | OptionalServiceFailed
    | NotReady(provider: Provider)
    | ProbeBroke(provider: Provider)
    | NoGoodModels

  /** The providers that are checked, in the order in which they are. */
  const CHECKED: seq<Provider> := [Ollama, OpenAI, Gemini, OpenRouter]

  /** The models that pass their probe, in the order in which they were requested. */
  function Accepted(services: Services, provider: Provider, models: seq<Model>): seq<Model> {
    if models == [] then []
    else
      var n := |models| - 1;
      Accepted(services, provider, models[..n]) +
      if services.verdict(provider, n, models[n]).Good? then [models[n]] else []
  }

  /** The model was requested at this place and passes its probe. */
  predicate PassesAt(services: Services, provider: Provider, models: seq<Model>, place: nat, m: Model) {
    place < |models| && models[place] == m && services.verdict(provider, place, m).Good?
  }

  /** The places of some models among the requested ones: in order, and all those that pass. */
  ghost predicate GoodPlaces(services: Services, provider: Provider, models: seq<Model>, places: seq<nat>,
                             found: seq<Model>) {
    && |places| == |found|
    && Ascending(places)
    && (forall i :: 0 <= i < |places| ==> PassesAt(services, provider, models, places[i], found[i]))
    && (forall k: nat :: k < |models| && services.verdict(provider, k, models[k]).Good? ==> k in places)
  }

  /** The good models and no others, in the order in which they were requested. */
  ghost predicate KeepsGood(services: Services, provider: Provider, models: seq<Model>, found: seq<Model>) {
    exists places :: GoodPlaces(services, provider, models, places, found)
  }

  lemma GoodPlacesGrow(services: Services, provider: Provider, models: seq<Model>, m: Model, places: seq<nat>,
                       found: seq<Model>)
    requires GoodPlaces(services, provider, models, places, found)
    ensures
      var good := services.verdict(provider, |models|, m).Good?;
      GoodPlaces(services, provider, models + [m], places + (if good then [|models|] else []),
                 found + if good then [m] else [])
  {
    var good := services.verdict(provider, |models|, m).Good?;
    var all, ps := models + [m], places + if good then [|models|] else [];
    var fs := found + if good then [m] else [];
    forall i | 0 <= i < |ps| ensures PassesAt(services, provider, all, ps[i], fs[i]) {
      if i < |places| {
        assert PassesAt(services, provider, models, places[i], found[i]);
      }
    }
    forall k: nat | k < |all| && services.verdict(provider, k, all[k]).Good? ensures k in ps {
      if k < |models| {
        assert services.verdict(provider, k, models[k]).Good?;
        assert k in places;
      } else {
        assert ps[|places|] == k;
      }
    }
  }

  lemma NoPlaces(services: Services, provider: Provider)
    ensures GoodPlaces(services, provider, [], [], [])
  {
  }

  lemma {:induction false} AcceptedPlaces(services: Services, provider: Provider, models: seq<Model>)
    returns (places: seq<nat>)
    ensures GoodPlaces(services, provider, models, places, Accepted(services, provider, models))
    decreases |models|
  {
    hide GoodPlaces;
    if models == [] {
      NoPlaces(services, provider);
      places := [];
    } else {
      var front, last := models[..|models| - 1], models[|models| - 1];
      places := AcceptedPlaces(services, provider, front);
      GoodPlacesGrow(services, provider, front, last, places, Accepted(services, provider, front));
      assert models == front + [last];
      places := places + if services.verdict(provider, |front|, last).Good? then [|front|] else [];
    }
  }

  /** A model that passes its probe is never lost to a neighbour that does not. */
  lemma AcceptedKeepsGood(services: Services, provider: Provider, models: seq<Model>)
    ensures KeepsGood(services, provider, models, Accepted(services, provider, models))
  {
    hide GoodPlaces, Accepted;
    var places := AcceptedPlaces(services, provider, models);
  }

  predicate CheckPasses(services: Services, provider: Provider, models: seq<Model>) {
    services.ready(provider) && forall i: nat :: i < |models| ==> !services.verdict(provider, i, models[i]).Broken?
  }

  function Group(services: Services, models: seq<Entry>, provider: Provider): seq<Entry> {
    Tagged(provider, Accepted(services, provider, GetModelsForProvider(models, provider)))
  }

  function GroupAll(services: Services, models: seq<Entry>, providers: seq<Provider>): seq<Entry> {
    if providers == [] then []
    else
      var n := |providers| - 1;
      GroupAll(services, models, providers[..n]) + Group(services, models, providers[n])
  }

  /** The accepted models of the four checked providers, provider after provider. */
  function Grouped(services: Services, models: seq<Entry>): seq<Entry> {
    GroupAll(services, models, CHECKED)
  }

  ghost predicate AllChecksPass(services: Services, models: seq<Entry>) {
    && services.optional
    && Grouped(services, models) != []
    && BlockPasses(services, models, Ollama)
    && BlockPasses(services, models, OpenAI)
    && BlockPasses(services, models, Gemini)
    && BlockPasses(services, models, OpenRouter)
  }

  /** A provider's check passes, or is not run because the provider is not configured. */
  ghost predicate BlockPasses(services: Services, models: seq<Entry>, provider: Provider) {
    provider in GetProviders(models) ==> CheckPasses(services, provider, GetModelsForProvider(models, provider))
  }

  lemma GroupAllGrows(services: Services, models: seq<Entry>, providers: seq<Provider>, provider: Provider)
    ensures GroupAll(services, models, providers + [provider])
         == GroupAll(services, models, providers) + Group(services, models, provider)
  {
    assert (providers + [provider])[..|providers|] == providers;
  }

  lemma GroupedIsConcat(services: Services, models: seq<Entry>)
    ensures Grouped(services, models) == Group(services, models, Ollama) + Group(services, models, OpenAI)
      + Group(services, models, Gemini) + Group(services, models, OpenRouter)
  {
    hide Group;
    GroupAllGrows(services, models, [], Ollama);
    GroupAllGrows(services, models, [Ollama], OpenAI);
    GroupAllGrows(services, models, [Ollama, OpenAI], Gemini);
    GroupAllGrows(services, models, [Ollama, OpenAI, Gemini], OpenRouter);
    assert CHECKED == [Ollama, OpenAI, Gemini] + [OpenRouter];
    assert [Ollama, OpenAI, Gemini] == [Ollama, OpenAI] + [Gemini];
    assert [Ollama, OpenAI] == [Ollama] + [OpenAI];
    assert [Ollama] == [] + [Ollama];
  }

  lemma {:induction false} NoModelsOfAbsent(models: seq<Entry>, provider: Provider)
    requires forall m :: (provider, m) !in models
    ensures GetModelsForProvider(models, provider) == []
    decreases |models|
  {
    if models != [] {
      assert (models[0].0, models[0].1) in models;
      NoModelsOfAbsent(models[1..], provider);
    }
  }

  /** A provider that is not configured has nothing to group. */
  lemma AbsentProviderGroup(services: Services, models: seq<Entry>, provider: Provider)
    requires provider !in GetProviders(models)
    ensures Group(services, models, provider) == []
  {
    NoModelsOfAbsent(models, provider);
  }

  class DriaWorkflowsConfig {
    var models: seq<Entry>

    constructor (catalog: Catalog, models: seq<Model>)
      ensures this.models == New(catalog, models)
    {
      this.models := New(catalog, models);
    }

    /** The loop of a provider's `check` over the requested models. */
    static method Check(services: Services, provider: Provider,
                        requested: seq<Model>) returns (r: Result<seq<Model>, ServiceError>)
      ensures r.Ok? <==> CheckPasses(services, provider, requested)
      ensures r.Ok? ==> r.value == Accepted(services, provider, requested)
      ensures r.Ok? ==> KeepsGood(services, provider, requested, r.value)
      ensures r.Err? ==> r.error == if services.ready(provider) then ProbeBroke(provider) else NotReady(provider)
    {
      if !services.ready(provider) {
        return Err(NotReady(provider));
      }
      var available := [];
      for i: nat := 0 to |requested|
        invariant available == Accepted(services, provider, requested[..i])
        invariant forall j: nat :: j < i ==> !services.verdict(provider, j, requested[j]).Broken?
      {
        assert requested[..i + 1][..i] == requested[..i];
        match services.verdict(provider, i, requested[i]) {
          case Broken => return Err(ProbeBroke(provider));
          case Bad =>
          case Good => available := available + [requested[i]];
        }
      }
      assert requested[..|requested|] == requested;
      AcceptedKeepsGood(services, provider, requested);
      r := Ok(available);
    }

    /** One block of the check: skipped unless the provider is configured. */
    method CheckBlock(services: Services, provider: Provider,
                      good: seq<Entry>) returns (r: Result<seq<Entry>, ServiceError>)
      ensures r.Ok? <==> BlockPasses(services, models, provider)
      ensures r.Ok? ==> r.value == good + Group(services, models, provider)
      ensures r.Err? ==> r.error == if services.ready(provider) then ProbeBroke(provider) else NotReady(provider)
    {
      var uniqueProviders := GetProviders(models);
      if provider in uniqueProviders {
        var checked := Check(services, provider, GetModelsForProvider(models, provider));
        match checked {
          case Ok(accepted) => r := Ok(good + Tagged(provider, accepted));
          case Err(e) => r := Err(e);
        }
      } else {
        AbsentProviderGroup(services, models, provider);
        r := Ok(good);
      }
    }

    /** Keeps the models that pass; on any error the configuration stays as it was. */
    method CheckServices(services: Services) returns (r: Result<(), ServiceError>)
      modifies this
      ensures r.Ok? <==> AllChecksPass(services, old(models))
      ensures models == if r.Ok? then Grouped(services, old(models)) else old(models)
      ensures r == Err(OptionalServiceFailed) <==> !services.optional
      ensures r == Err(NoGoodModels) <==>
        && services.optional && Grouped(services, old(models)) == []
        && forall p :: p in CHECKED ==> BlockPasses(services, old(models), p)
    {
      hide BlockPasses, Group;
      if !services.optional {
        return Err(OptionalServiceFailed);
      }
      var ollama := CheckBlock(services, Ollama, []);
      if ollama.Err? { return Err(ollama.error); }
      var openai := CheckBlock(services, OpenAI, ollama.value);
      if openai.Err? { return Err(openai.error); }
      var gemini := CheckBlock(services, Gemini, openai.value);
      if gemini.Err? { return Err(gemini.error); }
      var openrouter := CheckBlock(services, OpenRouter, gemini.value);
      if openrouter.Err? { return Err(openrouter.error); }
      var goodModels := openrouter.value;
      GroupedIsConcat(services, models);
      assert goodModels == Grouped(services, models);
      if goodModels == [] {
        r := Err(NoGoodModels);
      } else {
        models := goodModels;
        r := Ok(());
      }
    }
  }

  // ---------------------------------------------------------------- what the grouping means

  lemma NoModels(provider: Provider)
    ensures GetModelsForProvider([], provider) == []
  {
  }

  lemma {:induction false} ModelsOfConcat(a: seq<Entry>, b: seq<Entry>, provider: Provider)
    ensures GetModelsForProvider(a + b, provider) ==
      GetModelsForProvider(a, provider) + GetModelsForProvider(b, provider)
    decreases |a|
  {
    if a == [] {
      assert a + b == b;
    } else {
      assert (a + b)[1..] == a[1..] + b;
      ModelsOfConcat(a[1..], b, provider);
    }
  }

  lemma {:induction false} ModelsOfTagged(models: seq<Model>, tag: Provider, provider: Provider)
    ensures GetModelsForProvider(Tagged(tag, models), provider) == if tag == provider then models else []
    decreases |models|
  {
    if models != [] {
      assert Tagged(tag, models)[1..] == Tagged(tag, models[1..]);
      ModelsOfTagged(models[1..], tag, provider);
    }
  }

  lemma {:induction false} GroupAllIsStable(services: Services, models: seq<Entry>, providers: seq<Provider>,
                                            provider: Provider)
    requires forall i, j :: 0 <= i < j < |providers| ==> providers[i] != providers[j]
    ensures GetModelsForProvider(GroupAll(services, models, providers), provider)
         == if provider in providers then Accepted(services, provider, GetModelsForProvider(models, provider)) else []
    decreases |providers|
  {
    hide GetModelsForProvider, Accepted, Tagged;
    if providers == [] {
      NoModels(provider);
    } else {
      var n := |providers| - 1;
      GroupAllIsStable(services, models, providers[..n], provider);
      ModelsOfConcat(GroupAll(services, models, providers[..n]), Group(services, models, providers[n]), provider);
      ModelsOfTagged(Accepted(services, providers[n], GetModelsForProvider(models, providers[n])), providers[n],
        provider);
      assert providers == providers[..n] + [providers[n]];
    }
  }

  lemma ModelsOfGrouped(services: Services, models: seq<Entry>, provider: Provider)
    ensures GetModelsForProvider(Grouped(services, models), provider)
         == if provider in CHECKED then Accepted(services, provider, GetModelsForProvider(models, provider)) else []
  {
    GroupAllIsStable(services, models, CHECKED, provider);
  }

  /**
   Within a provider the grouping is stable: its models afterwards are, in their order, just those of its
   models before that pass their probe. Of a provider that is not checked none is left.
   */
  lemma GroupingIsStable(services: Services, models: seq<Entry>, provider: Provider)
    ensures
      var before := GetModelsForProvider(models, provider);
      var after := GetModelsForProvider(Grouped(services, models), provider);
      if provider in CHECKED then KeepsGood(services, provider, before, after) else after == []
  {
    hide GetModelsForProvider, Accepted, Grouped, KeepsGood;
    ModelsOfGrouped(services, models, provider);
    AcceptedKeepsGood(services, provider, GetModelsForProvider(models, provider));
  }

  /** The place of a provider among the checks. */
  function Turn(provider: Provider): nat {
    match provider
    case Ollama => 0
    case OpenAI => 1
    case Gemini => 2
    case OpenRouter => 3
    case OtherProvider(_) => 4
  }

  /** Between providers the order is that of the checks. */
  lemma GroupedInTurn(services: Services, models: seq<Entry>, i: nat, j: nat)
    requires i < j < |Grouped(services, models)|
    ensures Turn(Grouped(services, models)[i].0) <= Turn(Grouped(services, models)[j].0) < 4
  {
    hide Accepted, GetModelsForProvider;
    GroupedIsConcat(services, models);
  }

  lemma {:induction false} AcceptedCount(services: Services, provider: Provider, models: seq<Model>, m: Model)
    ensures multiset(Accepted(services, provider, models))[m] <= multiset(models)[m]
    decreases |models|
  {
    if models != [] {
      var n := |models| - 1;
      AcceptedCount(services, provider, models[..n], m);
      assert models == models[..n] + [models[n]];
    }
  }

  lemma {:induction false} GoodModelsAreAccepted(services: Services, provider: Provider, models: seq<Model>)
    requires forall i: nat :: i < |models| ==> services.verdict(provider, i, models[i]).Good?
    ensures Accepted(services, provider, models) == models
    decreases |models|
  {
    if models != [] {
      var n := |models| - 1;
      GoodModelsAreAccepted(services, provider, models[..n]);
      assert models == models[..n] + [models[n]];
    }
  }

  lemma TaggedFirst(provider: Provider, models: seq<Model>)
    requires models != []
    ensures Tagged(provider, models) == [(provider, models[0])] + Tagged(provider, models[1..])
  {
  }

  lemma {:induction false} TaggedCount(provider: Provider, models: seq<Model>, e: Entry)
    ensures multiset(Tagged(provider, models))[e] == if e.0 == provider then multiset(models)[e.1] else 0
    decreases |models|
  {
    hide Tagged;
    if models == [] {
      assert Tagged(provider, models) == [];
    } else {
      TaggedCount(provider, models[1..], e);
      TaggedFirst(provider, models);
      assert models == [models[0]] + models[1..];
      CountFirst((provider, models[0]), Tagged(provider, models[1..]), e);
      CountFirst(models[0], models[1..], e.1);
    }
  }

  lemma {:induction false} ModelsCount(models: seq<Entry>, provider: Provider, m: Model)
    ensures multiset(GetModelsForProvider(models, provider))[m] == multiset(models)[(provider, m)]
    decreases |models|
  {
    if models != [] {
      ModelsCount(models[1..], provider, m);
      assert models == [models[0]] + models[1..];
      CountFirst(models[0], models[1..], (provider, m));
      CountFirst(models[0].1, GetModelsForProvider(models[1..], provider), m);
    }
  }

  lemma GroupCount(services: Services, models: seq<Entry>, provider: Provider, e: Entry)
    ensures multiset(Group(services, models, provider))[e] <= if e.0 == provider then multiset(models)[e] else 0
    ensures AllGood(services) && e.0 == provider ==>
      multiset(Group(services, models, provider))[e] == multiset(models)[e]
  {
    var own := GetModelsForProvider(models, provider);
    TaggedCount(provider, Accepted(services, provider, own), e);
    AcceptedCount(services, provider, own, e.1);
    if AllGood(services) {
      GoodModelsAreAccepted(services, provider, own);
    }
    ModelsCount(models, provider, e.1);
  }

  ghost predicate AllGood(services: Services) {
    forall p, i, m :: services.verdict(p, i, m).Good?
  }

  lemma {:induction false} GroupAllCount(services: Services, models: seq<Entry>, providers: seq<Provider>, e: Entry)
    requires forall i, j :: 0 <= i < j < |providers| ==> providers[i] != providers[j]
    ensures multiset(GroupAll(services, models, providers))[e] <= if e.0 in providers then multiset(models)[e] else 0
    ensures AllGood(services) && e.0 in providers ==>
      multiset(GroupAll(services, models, providers))[e] == multiset(models)[e]
    decreases |providers|
  {
    if providers != [] {
      var n := |providers| - 1;
      GroupAllCount(services, models, providers[..n], e);
      GroupCount(services, models, providers[n], e);
      assert providers == providers[..n] + [providers[n]];
    }
  }

  /**
   Nothing is invented or duplicated. If every probe succeeds and only checked providers are
   configured, nothing is lost either.
   */
  lemma GroupingPermutes(services: Services, models: seq<Entry>)
    ensures multiset(Grouped(services, models)) <= multiset(models)
    ensures AllGood(services) && (forall e :: e in models ==> e.0 in CHECKED)
      ==> multiset(Grouped(services, models)) == multiset(models)
  {
    forall e
      ensures multiset(Grouped(services, models))[e] <= multiset(models)[e]
      ensures AllGood(services) && (forall e' :: e' in models ==> e'.0 in CHECKED)
        ==> multiset(Grouped(services, models))[e] == multiset(models)[e]
    {
      GroupAllCount(services, models, CHECKED, e);
    }
  }

  /** A provider is never attached to a model it does not own. */
  lemma GroupingKeepsProviders(services: Services, catalog: Catalog, models: seq<Entry>)
    requires Consistent(catalog, models)
    ensures Consistent(catalog, Grouped(services, models))
  {
    GroupingPermutes(services, models);
    forall e | e in Grouped(services, models) ensures e in models {
      assert e in multiset(Grouped(services, models));
    }
  }

  /** Probes whose verdict depends on the model alone. */
  ghost predicate Deterministic(services: Services) {
    forall p, i, j, m :: services.verdict(p, i, m) == services.verdict(p, j, m)
  }

  lemma {:induction false} AcceptedTwice(services: Services, provider: Provider, models: seq<Model>)
    requires Deterministic(services)
    ensures forall i: nat :: i < |Accepted(services, provider, models)| ==>
      services.verdict(provider, i, Accepted(services, provider, models)[i]).Good?
    decreases |models|
  {
    if models != [] {
      var n := |models| - 1;
      AcceptedTwice(services, provider, models[..n]);
      var front := Accepted(services, provider, models[..n]);
      assert services.verdict(provider, n, models[n]) == services.verdict(provider, |front|, models[n]);
    }
  }

  lemma SurvivorsWereThere(services: Services, models: seq<Entry>, provider: Provider)
    requires provider in GetProviders(Grouped(services, models))
    ensures provider in GetProviders(models)
  {
    var once := Grouped(services, models);
    var m :| (provider, m) in once;
    GroupingPermutes(services, models);
    assert (provider, m) in multiset(once);
    assert (provider, m) in multiset(models);
  }

  /** On its own result a check finds every model good, and groups it as it is. */
  lemma GroupTwice(services: Services, models: seq<Entry>, provider: Provider)
    requires Deterministic(services) && provider in CHECKED
    requires BlockPasses(services, models, provider)
    ensures Group(services, Grouped(services, models), provider) == Group(services, models, provider)
    ensures BlockPasses(services, Grouped(services, models), provider)
  {
    hide GetModelsForProvider, Accepted, Grouped, GetProviders;
    var once := Grouped(services, models);
    var own := GetModelsForProvider(once, provider);
    ModelsOfGrouped(services, models, provider);
    AcceptedTwice(services, provider, GetModelsForProvider(models, provider));
    GoodModelsAreAccepted(services, provider, own);
    if provider in GetProviders(once) {
      SurvivorsWereThere(services, models, provider);
    }
  }

  lemma {:induction false} GroupAllTwice(services: Services, models: seq<Entry>, providers: seq<Provider>)
    requires forall p :: p in providers ==> Group(services, Grouped(services, models), p) == Group(services, models, p)
    ensures GroupAll(services, Grouped(services, models), providers) == GroupAll(services, models, providers)
    decreases |providers|
  {
    if providers != [] {
      GroupAllTwice(services, models, providers[..|providers| - 1]);
    }
  }

  /** Checking again changes nothing, and the second check passes as well. */
  lemma CheckIsIdempotent(services: Services, models: seq<Entry>)
    requires Deterministic(services) && AllChecksPass(services, models)
    ensures Grouped(services, Grouped(services, models)) == Grouped(services, models)
    ensures AllChecksPass(services, Grouped(services, models))
  {
    hide Group, BlockPasses, GroupAll, Deterministic;
    GroupTwice(services, models, Ollama);
    GroupTwice(services, models, OpenAI);
    GroupTwice(services, models, Gemini);
    GroupTwice(services, models, OpenRouter);
    GroupAllTwice(services, models, CHECKED);
  }
}
