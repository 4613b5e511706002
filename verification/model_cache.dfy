/** The module-level cache of loaded Whisper models (`_modelos_cache` and
    `carregar_modelo_whisper`). */
module ModelCache {
  import opened Wrappers
  import opened Backend

  /** What one request for a model yields: the handle or the loader's
      failure, the cache afterwards, and the loader calls made. */
  datatype Loaded = Loaded(result: Result<Handle>, models: map<string, Handle>, calls: seq<Call>)

  /** One `carregar_modelo_whisper(model)` against the cache contents `models`. */
  function LoadStep(o: Oracles, models: map<string, Handle>, model: string): (r: Loaded)
    // a cached model is returned as stored, with no load
    ensures model in models ==> r == Loaded(Success(models[model]), models, [])
    // an absent one is loaded exactly once, and the loader's answer (the
    // handle it built, or its error message) is the answer
    ensures model !in models ==> r.calls == [LoadModel(model)] && r.result == o.load(model)
    // on success the model is cached and its stored handle is the one returned
    ensures r.result.Success? <==> model in r.models
    ensures r.result.Success? ==> r.models[model] == r.result.value
    // no other entry is added, removed or replaced
    ensures forall k :: k != model ==> (k in r.models <==> k in models)
    ensures forall k :: k in models ==> k in r.models && r.models[k] == models[k]
  {
    if model in models then Loaded(Success(models[model]), models, [])
    else
      match o.load(model)
      case Success(h) => Loaded(Success(h), models[model := h], [LoadModel(model)])
      case Failure(e) => Loaded(Failure(e), models, [LoadModel(model)])
  }

  /** Asking twice for a model that loaded returns the same handle, and the
      second request neither loads nor changes the cache. */
  lemma SecondRequestIsCached(o: Oracles, models: map<string, Handle>, model: string)
    requires LoadStep(o, models, model).result.Success?
    ensures var first := LoadStep(o, models, model);
      LoadStep(o, first.models, model) == Loaded(first.result, first.models, [])
  {
  }

  /** The cache object. `loads` counts, per model name, how often the loader
      ran (failed loads included); `stores` counts how often a handle was
      stored under that name. */
  class Cache {
    var models: map<string, Handle>
    ghost var loads: map<string, nat>
    ghost var stores: map<string, nat>

    /** Every cached model came from a run of the loader, and each cached
        name has had exactly one handle stored under it: a cached handle is
        never replaced, and a failed load stores nothing. */
    ghost predicate Valid()
      reads this
    {
      && stores.Keys == models.Keys
      && (forall k :: k in stores ==> stores[k] == 1)
      && (forall k :: k in models ==> k in loads && loads[k] >= 1)
    }

    constructor ()
      ensures Valid() && models == map[] && loads == map[]
    {
      models := map[];
      loads := map[];
      stores := map[];
    }

    /** `carregar_modelo_whisper(model)` */
    method Load(o: Oracles, model: string) returns (r: Result<Handle>)
      requires Valid()
      modifies this
      ensures Valid()
      ensures var step := LoadStep(o, old(models), model);
        && r == step.result
        && models == step.models
        && loads == Tally(old(loads), step.calls)
      ensures model in old(models) ==> r == Success(old(models)[model]) && models == old(models) && loads == old(loads)
      ensures model !in old(models) ==> loads == old(loads)[model := Count(old(loads), model) + 1]
    {
      if model !in models {
        loads := loads[model := Count(loads, model) + 1];
        match o.load(model)
        case Success(h) =>
          stores := stores[model := Count(stores, model) + 1];
          models := models[model := h];
        case Failure(e) =>
          return Failure(e);
      }
      r := Success(models[model]);
    }
  }
}
