/** Models, providers and their selection: workflows/src/config.rs. */
module Config {
  import opened Wrappers

  type Model = string

  /** The providers this code names, and any other one the workflows crate may know. */
  datatype Provider = Ollama | OpenAI | Gemini | OpenRouter | OtherProvider(name: string)

  type Entry = (Provider, Model)

  /** What the workflows crate knows: whose a model is, and how names are read. */
  datatype Catalog = Catalog(
    providerOf: Model -> Provider,
    parseProvider: string -> Option<Provider>,
    parseModel: string -> Option<Model>)

  datatype SelectError =
    | NoModels
    | UnsupportedProvider(provider: Provider)
    | UnsupportedModel(model: Model)
    | UnknownName(name: string)
    | NoMatch

  function New(catalog: Catalog, models: seq<Model>): (r: seq<Entry>)
    ensures Consistent(catalog, r)
    ensures |r| == |models| && forall i :: 0 <= i < |r| ==> r[i].1 == models[i]
  {
    seq(|models|, i requires 0 <= i < |models| => (catalog.providerOf(models[i]), models[i]))
  }

  /** Every entry carries the provider its model belongs to. */
  ghost predicate Consistent(catalog: Catalog, models: seq<Entry>) {
    forall e :: e in models ==> e.0 == catalog.providerOf(e.1)
  }

  function GetModelsForProvider(models: seq<Entry>, provider: Provider): (r: seq<Model>)
    ensures forall m :: m in r <==> (provider, m) in models
  {
    if models == [] then []
    else
      assert models == [models[0]] + models[1..];
      var rest := GetModelsForProvider(models[1..], provider);
      if models[0].0 == provider then [models[0].1] + rest else rest
  }

  /** `.map(|m| (provider, m))`. */
  function Tagged(provider: Provider, models: seq<Model>): (r: seq<Entry>)
    ensures |r| == |models|
    ensures forall i :: 0 <= i < |r| ==> r[i] == (provider, models[i])
  {
    seq(|models|, i requires 0 <= i < |models| => (provider, models[i]))
  }

  predicate HasBatchableModels(models: seq<Entry>) {
    exists e :: e in models && e.0 != Ollama
  }

  predicate HasNonBatchableModels(models: seq<Entry>) {
    exists e :: e in models && e.0 == Ollama
  }

  /** The distinct providers in the order of their first appearance. */
  function GetProviders(models: seq<Entry>): (r: seq<Provider>)
    ensures forall p :: p in r <==> exists m :: (p, m) in models
    ensures forall i, j :: 0 <= i < j < |r| ==> r[i] != r[j]
  {
    if models == [] then []
    else
      var front := models[..|models| - 1];
      var last := models[|models| - 1];
      assert models == front + [last];
      assert (last.0, last.1) in models;
      assert forall p, m :: (p, m) in models <==> (p, m) in front || (p, m) == last;
      var unique := GetProviders(front);
      if last.0 in unique then unique else unique + [last.0]
  }

  /** The model is configured under the provider at this place. */
  predicate FoundAt(models: seq<Entry>, provider: Provider, place: nat, m: Model) {
    place < |models| && models[place] == (provider, m)
  }

  ghost predicate Ascending(places: seq<nat>) {
    forall i, j :: 0 <= i < j < |places| ==> places[i] < places[j]
  }

  /** The places of some models among the entries: in order, and all there are for the provider. */
  ghost predicate PlacesOf(models: seq<Entry>, provider: Provider, places: seq<nat>, found: seq<Model>) {
    && |places| == |found|
    && Ascending(places)
    && (forall i :: 0 <= i < |places| ==> FoundAt(models, provider, places[i], found[i]))
    && (forall k :: 0 <= k < |models| && models[k].0 == provider ==> k in places)
  }

  lemma PlacesGrow(models: seq<Entry>, entry: Entry, provider: Provider, places: seq<nat>, found: seq<Model>)
    requires PlacesOf(models, provider, places, found)
    ensures
      var own := entry.0 == provider;
      PlacesOf(models + [entry], provider, places + (if own then [|models|] else []),
               found + if own then [entry.1] else [])
  {
    var own := entry.0 == provider;
    var all, ps := models + [entry], places + if own then [|models|] else [];
    var fs := found + if own then [entry.1] else [];
    forall i | 0 <= i < |ps| ensures FoundAt(all, provider, ps[i], fs[i]) {
      if i < |places| {
        assert FoundAt(models, provider, places[i], found[i]);
      }
    }
    forall k | 0 <= k < |all| && all[k].0 == provider ensures k in ps {
      if k < |models| {
        assert models[k].0 == provider;
        assert k in places;
      } else {
        assert ps[|places|] == k;
      }
    }
  }

  lemma {:induction false} ModelsAppend(models: seq<Entry>, entry: Entry, provider: Provider)
    ensures GetModelsForProvider(models + [entry], provider)
         == GetModelsForProvider(models, provider) + if entry.0 == provider then [entry.1] else []
    decreases |models|
  {
    if models != [] {
      assert (models + [entry])[1..] == models[1..] + [entry];
      ModelsAppend(models[1..], entry, provider);
    }
  }

  /** The models of a provider are those configured under it, each as often as it is, in their order. */
  lemma {:induction false} ModelsKeepTheirPlaces(models: seq<Entry>, provider: Provider) returns (places: seq<nat>)
    ensures PlacesOf(models, provider, places, GetModelsForProvider(models, provider))
    decreases |models|
  {
    if models == [] {
      places := [];
    } else {
      var front, last := models[..|models| - 1], models[|models| - 1];
      places := ModelsKeepTheirPlaces(front, provider);
      hide PlacesOf, GetModelsForProvider;
      ModelsAppend(front, last, provider);
      PlacesGrow(front, last, provider, places, GetModelsForProvider(front, provider));
      assert models == front + [last];
      places := places + if last.0 == provider then [|front|] else [];
    }
  }

  /** An earlier provider in the list has an entry before any entry of a later one. */
  lemma {:induction false} ProvidersInOrder(models: seq<Entry>, i: nat, j: nat, q: nat) returns (p: nat)
    requires i < j < |GetProviders(models)| && q < |models| && models[q].0 == GetProviders(models)[j]
    ensures p < q && models[p].0 == GetProviders(models)[i]
    decreases |models|
  {
    var n := |models| - 1;
    var unique := GetProviders(models[..n]);
    assert GetProviders(models)[i] == unique[i];
    if q < n {
      assert models[..n][q] == models[q];
      assert (models[q].0, models[q].1) in models[..n];
      assert models[q].0 in unique;
      p := ProvidersInOrder(models[..n], i, j, q);
    } else {
      assert unique[i] in unique;
      var m :| (unique[i], m) in models[..n];
      p :| 0 <= p < n && models[..n][p] == (unique[i], m);
    }
  }

  // ---------------------------------------------------------------- selection

  function FindProvider(models: seq<Entry>, provider: Provider): Option<Entry> {
    if models == [] then None
    else if models[0].0 == provider then Some(models[0])
    else FindProvider(models[1..], provider)
  }

  function FindModel(models: seq<Entry>, model: Model): Option<Entry> {
    if models == [] then None
    else if models[0].1 == model then Some(models[0])
    else FindModel(models[1..], model)
  }

  /** `choose` with its random draw made explicit. */
  function Choose(entries: seq<Entry>, draw: nat): Option<Entry> {
    if entries == [] then None else Some(entries[draw % |entries|])
  }

  function OrElse(found: Option<Entry>, error: SelectError): Result<Entry, SelectError> {
    match found
    case Some(e) => Ok(e)
    case None => Err(error)
  }

  function GetMatchingModel(catalog: Catalog, models: seq<Entry>, name: string, draw: nat): Result<Entry, SelectError> {
    if name == "*" then OrElse(Choose(models, draw), NoModels)
    else if name == "!" then OrElse(if models == [] then None else Some(models[0]), NoModels)
    else match catalog.parseProvider(name)
      case Some(provider) => OrElse(FindProvider(models, provider), UnsupportedProvider(provider))
      case None =>
        match catalog.parseModel(name)
        case Some(model) => OrElse(FindModel(models, model), UnsupportedModel(model))
        case None => Err(UnknownName(name))
  }

  /** `filter_map` over the requested names; every `*` makes a draw of its own. */
  function Matching(catalog: Catalog, models: seq<Entry>, names: seq<string>, draws: nat -> nat): seq<Entry> {
    if names == [] then []
    else
      var n := |names| - 1;
      Matching(catalog, models, names[..n], draws) +
      match GetMatchingModel(catalog, models, names[n], draws(n))
      case Ok(e) => [e]
      case Err(_) => []
  }

  function GetAnyMatchingModel(catalog: Catalog, models: seq<Entry>, names: seq<string>, draws: nat -> nat,
                               draw: nat): Result<Entry, SelectError> {
    OrElse(Choose(Matching(catalog, models, names, draws), draw), NoMatch)
  }

  /** The reference definition of a match: what one requested name may stand for. */
  ghost predicate MayMean(catalog: Catalog, models: seq<Entry>, name: string, e: Entry) {
    if name == "*" then e in models
    else if name == "!" then models != [] && e == models[0]
    else match catalog.parseProvider(name)
      case Some(provider) => e.0 == provider && IsFirst(models, e, true)
      case None => catalog.parseModel(name) == Some(e.1) && IsFirst(models, e, false)
  }

  predicate SameKey(a: Entry, b: Entry, byProvider: bool) {
    if byProvider then a.0 == b.0 else a.1 == b.1
  }

  /** e is the first entry with its provider, or with its model. */
  ghost predicate IsFirst(models: seq<Entry>, e: Entry, byProvider: bool) {
    exists i :: FirstAt(models, e, byProvider, i)
  }

  ghost predicate FirstAt(models: seq<Entry>, e: Entry, byProvider: bool, i: int) {
    && 0 <= i < |models|
    && models[i] == e
    && forall j :: 0 <= j < i ==> !SameKey(models[j], e, byProvider)
  }

  lemma IsFirstInTail(models: seq<Entry>, e: Entry, byProvider: bool)
    requires models != []
    ensures SameKey(models[0], e, byProvider) ==> (IsFirst(models, e, byProvider) <==> models[0] == e)
    ensures !SameKey(models[0], e, byProvider) ==>
      (IsFirst(models, e, byProvider) <==> IsFirst(models[1..], e, byProvider))
  {
    if models[0] == e {
      assert FirstAt(models, e, byProvider, 0);
    }
    if !SameKey(models[0], e, byProvider) {
      if IsFirst(models[1..], e, byProvider) {
        var i :| FirstAt(models[1..], e, byProvider, i);
        forall j | 0 <= j < i + 1 ensures !SameKey(models[j], e, byProvider) {
          assert j > 0 ==> models[j] == models[1..][j - 1];
        }
        assert FirstAt(models, e, byProvider, i + 1);
      }
      if IsFirst(models, e, byProvider) {
        var i :| FirstAt(models, e, byProvider, i);
        assert FirstAt(models[1..], e, byProvider, i - 1);
      }
    }
  }

  lemma {:induction false} FindProviderIsFirst(models: seq<Entry>, provider: Provider, e: Entry)
    ensures FindProvider(models, provider) == Some(e) <==> e.0 == provider && IsFirst(models, e, true)
    decreases |models|
  {
    if models != [] {
      FindProviderIsFirst(models[1..], provider, e);
      IsFirstInTail(models, e, true);
    }
  }

  lemma {:induction false} FindModelIsFirst(models: seq<Entry>, model: Model, e: Entry)
    ensures FindModel(models, model) == Some(e) <==> e.1 == model && IsFirst(models, e, false)
    decreases |models|
  {
    if models != [] {
      FindModelIsFirst(models[1..], model, e);
      IsFirstInTail(models, e, false);
    }
  }

  /** Only `*` draws; any other name has one meaning at most. */
  lemma MatchingModelAt(catalog: Catalog, models: seq<Entry>, name: string, draw: nat, e: Entry)
    requires name != "*"
    ensures GetMatchingModel(catalog, models, name, draw) == Ok(e) <==> MayMean(catalog, models, name, e)
  {
    if name != "!" {
      match catalog.parseProvider(name)
      case Some(provider) =>
        FindProviderIsFirst(models, provider, e);
      case None =>
        match catalog.parseModel(name)
        case Some(model) => FindModelIsFirst(models, model, e);
        case None =>
    }
  }

  /** What `get_matching_model` can return is exactly what the name may mean. */
  lemma MatchingModelIsExact(catalog: Catalog, models: seq<Entry>, name: string, e: Entry)
    ensures (exists draw: nat :: GetMatchingModel(catalog, models, name, draw) == Ok(e)) <==>
      MayMean(catalog, models, name, e)
  {
    if name == "*" {
      if e in models {
        var i: nat :| i < |models| && models[i] == e;
        assert i % |models| == i;
        assert GetMatchingModel(catalog, models, name, i) == Ok(e);
      }
    } else {
      forall draw: nat
        ensures GetMatchingModel(catalog, models, name, draw) == Ok(e) <==> MayMean(catalog, models, name, e)
      {
        MatchingModelAt(catalog, models, name, draw, e);
      }
      assert GetMatchingModel(catalog, models, name, 0) == Ok(e) <==> MayMean(catalog, models, name, e);
    }
  }

  /** A name that matches nothing under one draw matches nothing under any. */
  lemma FailureIgnoresDraw(catalog: Catalog, models: seq<Entry>, name: string, a: nat, b: nat)
    ensures GetMatchingModel(catalog, models, name, a).Ok? <==> GetMatchingModel(catalog, models, name, b).Ok?
  {
  }

  /** A single name fails exactly if it means nothing, and is unknown exactly if it cannot be read at all. */
  lemma MatchingModelFails(catalog: Catalog, models: seq<Entry>, name: string, draw: nat)
    ensures GetMatchingModel(catalog, models, name, draw).Err? <==> forall e :: !MayMean(catalog, models, name, e)
    ensures GetMatchingModel(catalog, models, name, draw) == Err(UnknownName(name)) <==>
      name !in {"*", "!"} && catalog.parseProvider(name).None? && catalog.parseModel(name).None?
  {
    var found := GetMatchingModel(catalog, models, name, draw);
    if found.Ok? {
      MatchingModelIsExact(catalog, models, name, found.value);
    }
    if e :| MayMean(catalog, models, name, e) {
      MatchingModelIsExact(catalog, models, name, e);
      var other: nat :| GetMatchingModel(catalog, models, name, other) == Ok(e);
      FailureIgnoresDraw(catalog, models, name, other, draw);
    }
  }

  lemma {:induction false} MatchingMembers(catalog: Catalog, models: seq<Entry>, names: seq<string>,
                                           draws: nat -> nat, e: Entry)
    ensures e in Matching(catalog, models, names, draws) <==>
      exists i: nat :: i < |names| && GetMatchingModel(catalog, models, names[i], draws(i)) == Ok(e)
    decreases |names|
  {
    if names != [] {
      var n := |names| - 1;
      MatchingMembers(catalog, models, names[..n], draws, e);
      forall i: nat | i < n ensures names[..n][i] == names[i] {}
      if e in Matching(catalog, models, names[..n], draws) {
        var i: nat :| i < n && GetMatchingModel(catalog, models, names[..n][i], draws(i)) == Ok(e);
        assert GetMatchingModel(catalog, models, names[i], draws(i)) == Ok(e);
      }
      if i: nat :| i < |names| && GetMatchingModel(catalog, models, names[i], draws(i)) == Ok(e) {
        if i < n {
          assert GetMatchingModel(catalog, models, names[..n][i], draws(i)) == Ok(e);
        }
      }
    }
  }

  /** Some draws make `get_any_matching_model` return e. */
  ghost predicate CanSelect(catalog: Catalog, models: seq<Entry>, names: seq<string>, e: Entry) {
    exists draws: nat -> nat, draw: nat :: GetAnyMatchingModel(catalog, models, names, draws, draw) == Ok(e)
  }

  /** Some requested name may mean e. */
  ghost predicate Requested(catalog: Catalog, models: seq<Entry>, names: seq<string>, e: Entry) {
    exists i :: 0 <= i < |names| && MayMean(catalog, models, names[i], e)
  }

  lemma SelectedIsRequested(catalog: Catalog, models: seq<Entry>, names: seq<string>, draws: nat -> nat, draw: nat,
                            e: Entry)
    requires GetAnyMatchingModel(catalog, models, names, draws, draw) == Ok(e)
    ensures Requested(catalog, models, names, e)
  {
    MatchingMembers(catalog, models, names, draws, e);
    var i: nat :| i < |names| && GetMatchingModel(catalog, models, names[i], draws(i)) == Ok(e);
    MatchingModelIsExact(catalog, models, names[i], e);
  }

  lemma ChooseAt(entries: seq<Entry>, k: nat)
    requires k < |entries|
    ensures Choose(entries, k) == Some(entries[k])
  {
    assert k % |entries| == k;
  }

  lemma MeantCanBeSelected(catalog: Catalog, models: seq<Entry>, names: seq<string>, i: nat, e: Entry)
    requires i < |names| && MayMean(catalog, models, names[i], e)
    ensures CanSelect(catalog, models, names, e)
  {
    hide MayMean, GetMatchingModel, Matching, Choose;
    MatchingModelIsExact(catalog, models, names[i], e);
    var d: nat :| GetMatchingModel(catalog, models, names[i], d) == Ok(e);
    var draws: nat -> nat := _ => d;
    assert GetMatchingModel(catalog, models, names[i], draws(i)) == Ok(e);
    MatchingMembers(catalog, models, names, draws, e);
    var found := Matching(catalog, models, names, draws);
    var k: nat :| k < |found| && found[k] == e;
    ChooseAt(found, k);
    assert GetAnyMatchingModel(catalog, models, names, draws, k) == Ok(e);
  }

  /**
   Whatever the random draws, the possible results of `get_any_matching_model` are exactly the
   union of what the single names may mean.
   */
  lemma AnyMatchIsExact(catalog: Catalog, models: seq<Entry>, names: seq<string>, e: Entry)
    ensures CanSelect(catalog, models, names, e) <==> Requested(catalog, models, names, e)
  {
    if CanSelect(catalog, models, names, e) {
      var draws: nat -> nat, draw: nat :| GetAnyMatchingModel(catalog, models, names, draws, draw) == Ok(e);
      SelectedIsRequested(catalog, models, names, draws, draw, e);
    }
    if Requested(catalog, models, names, e) {
      var i: nat :| i < |names| && MayMean(catalog, models, names[i], e);
      MeantCanBeSelected(catalog, models, names, i, e);
    }
  }

  /** It fails exactly when no name means anything, and then under every draw. */
  lemma AnyMatchFails(catalog: Catalog, models: seq<Entry>, names: seq<string>, draws: nat -> nat, draw: nat)
    ensures GetAnyMatchingModel(catalog, models, names, draws, draw).Err?
       <==> !exists e :: Requested(catalog, models, names, e)
  {
    var found := Matching(catalog, models, names, draws);
    if found != [] {
      SelectedIsRequested(catalog, models, names, draws, draw, found[draw % |found|]);
    }
    if e :| Requested(catalog, models, names, e) {
      var i: nat :| i < |names| && MayMean(catalog, models, names[i], e);
      MatchingModelIsExact(catalog, models, names[i], e);
      var d: nat :| GetMatchingModel(catalog, models, names[i], d) == Ok(e);
      FailureIgnoresDraw(catalog, models, names[i], d, draws(i));
      MatchingMembers(catalog, models, names, draws, GetMatchingModel(catalog, models, names[i], draws(i)).value);
    }
  }

  /** A name that reads both as a provider and as a model stands for the provider. */
  lemma ProviderComesFirst(catalog: Catalog, models: seq<Entry>, name: string, e: Entry)
    requires name != "*" && name != "!"
    requires catalog.parseProvider(name).Some? && catalog.parseModel(name).Some?
    requires MayMean(catalog, models, name, e)
    ensures e.0 == catalog.parseProvider(name).value
  {
  }

  /** A selected model is configured, so the worker its kind needs exists. */
  lemma SelectionHasWorker(catalog: Catalog, models: seq<Entry>, names: seq<string>, draws: nat -> nat, draw: nat)
    requires GetAnyMatchingModel(catalog, models, names, draws, draw).Ok?
    ensures
      var e := GetAnyMatchingModel(catalog, models, names, draws, draw).value;
      && e in models
      && (if e.0 == Ollama then HasNonBatchableModels(models) else HasBatchableModels(models))
  {
    var e := GetAnyMatchingModel(catalog, models, names, draws, draw).value;
    SelectedIsRequested(catalog, models, names, draws, draw, e);
  }

  /** Some request can be routed to an entry of this kind. */
  ghost predicate CanRoute(catalog: Catalog, models: seq<Entry>, batchable: bool) {
    exists names, e :: CanSelect(catalog, models, names, e) && (e.0 != Ollama <==> batchable)
  }

  lemma ConfiguredCanBeRouted(catalog: Catalog, models: seq<Entry>, e: Entry)
    requires e in models
    ensures CanRoute(catalog, models, e.0 != Ollama)
  {
    assert MayMean(catalog, models, ["*"][0], e);
    AnyMatchIsExact(catalog, models, ["*"], e);
  }

  /** A worker is created for exactly the kinds of models that some request can select. */
  lemma WorkersAreThoseNeeded(catalog: Catalog, models: seq<Entry>, batchable: bool)
    ensures (if batchable then HasBatchableModels(models) else HasNonBatchableModels(models))
       <==> CanRoute(catalog, models, batchable)
  {
    hide Requested, CanRoute;
    forall e | e in models ensures CanRoute(catalog, models, e.0 != Ollama) {
      ConfiguredCanBeRouted(catalog, models, e);
    }
    if CanRoute(catalog, models, batchable) {
      RoutedIsConfigured(catalog, models, batchable);
    }
  }

  lemma RoutedIsConfigured(catalog: Catalog, models: seq<Entry>, batchable: bool)
    requires CanRoute(catalog, models, batchable)
    ensures if batchable then HasBatchableModels(models) else HasNonBatchableModels(models)
  {
    var names, e :| CanSelect(catalog, models, names, e) && (e.0 != Ollama <==> batchable);
    var draws: nat -> nat, draw: nat :| GetAnyMatchingModel(catalog, models, names, draws, draw) == Ok(e);
    SelectionHasWorker(catalog, models, names, draws, draw);
  }
}
