/**
 * The pure computations on the model catalog that the settings hook performs inside
 * its operations: `some` by id, `find` of the first other entry, `filter` by id or by
 * provider, and the append of `addModel`.
 */
module Catalog {
  import opened Wrappers
  import opened Filtering
  import opened Models

  /** Some entry of `models` has this id (`models.some(m => m.id === id)`). */
  function HasId(models: seq<ModelConfig>, id: string): (found: bool)
    ensures found <==> exists i :: 0 <= i < |models| && models[i].id == id
  {
    |models| > 0 && (models[0].id == id || HasId(models[1..], id))
  }

  /** No two entries share an id. */
  predicate UniqueIds(models: seq<ModelConfig>) {
    forall i, j :: 0 <= i < j < |models| ==> models[i].id != models[j].id
  }

  /** The entry's provider is one the application accepts. */
  predicate AllowedModel(m: ModelConfig) {
    IsAllowedProvider(m.provider)
  }

  /** Every entry has an accepted provider. */
  predicate AllAllowed(models: seq<ModelConfig>) {
    forall m :: m in models ==> AllowedModel(m)
  }

  /** The fixed list of allowed models satisfies both catalog invariants. */
  lemma AllowListIsValid()
    ensures UniqueIds(AllowList) && AllAllowed(AllowList)
  {
    OpenAIAllowed();
    DeepseekAllowed();
    assert AllowList[2].id[7] != AllowList[3].id[7];
  }

  /** The test that keeps every entry whose id is not `id`. */
  function OtherId(id: string): ModelConfig -> bool {
    (m: ModelConfig) => m.id != id
  }

  /** The catalog without the entries that carry `id` (`models.filter(m => m.id !== id)`). */
  function WithoutId(models: seq<ModelConfig>, id: string): (r: seq<ModelConfig>)
    ensures forall m :: m in r <==> m in models && m.id != id
    ensures !HasId(r, id)
  {
    Filter(models, OtherId(id))
  }

  /** The entries with an accepted provider, as loading a saved catalog filters it. */
  function AllowedOnly(models: seq<ModelConfig>): (r: seq<ModelConfig>)
    ensures forall m :: m in r <==> m in models && AllowedModel(m)
    ensures AllAllowed(r)
  {
    Filter(models, AllowedModel)
  }

  /** The first entry whose id is not `id` (`models.find(m => m.id !== id)`). */
  function FirstOther(models: seq<ModelConfig>, id: string): (r: Option<ModelConfig>)
    ensures r.None? <==> forall m :: m in models ==> m.id == id
    ensures r.Some? ==> r.value in models && r.value.id != id
  {
    if models == [] then None
    else if models[0].id != id then Some(models[0])
    else FirstOther(models[1..], id)
  }

  /** The first entry with another id is the first entry that survives removing `id`. */
  lemma {:induction false} FirstOtherIsFirstRemaining(models: seq<ModelConfig>, id: string)
    ensures FirstOther(models, id) ==
              if WithoutId(models, id) == [] then None else Some(WithoutId(models, id)[0])
  {
    if models != [] && models[0].id == id {
      FirstOtherIsFirstRemaining(models[1..], id);
    }
  }

  /**
   * The active model after `removeModel(id)`: unchanged unless it carries `id`; otherwise the
   * first catalog entry with another id, or the default model when the catalog has none.
   */
  function Reassign(active: ModelConfig, catalog: seq<ModelConfig>, id: string): (next: ModelConfig)
    ensures active.id != id ==> next == active
    ensures active.id == id && WithoutId(catalog, id) != [] ==> next == WithoutId(catalog, id)[0]
    ensures active.id == id && WithoutId(catalog, id) == [] ==> next == DefaultModel
  {
    if active.id != id then active
    else
      FirstOtherIsFirstRemaining(catalog, id);
      FirstOther(catalog, id).GetOr(DefaultModel)
  }

  /**
   * Removing the default model from a catalog that holds only it makes the default model
   * active again: the fallback can carry the removed id and lie outside the catalog.
   */
  lemma FallbackMayCarryRemovedId()
    ensures Reassign(DefaultModel, [DefaultModel], DefaultModel.id) == DefaultModel
    ensures WithoutId([DefaultModel], DefaultModel.id) == []
  {
  }

  /** Filtering keeps ids unique. */
  lemma {:induction false} FilterKeepsUniqueIds(models: seq<ModelConfig>, keep: ModelConfig -> bool)
    requires UniqueIds(models)
    ensures UniqueIds(Filter(models, keep))
  {
    if models != [] {
      var rest := models[1..];
      assert UniqueIds(rest) by {
        forall i, j | 0 <= i < j < |rest| ensures rest[i].id != rest[j].id {
          assert rest[i] == models[i + 1] && rest[j] == models[j + 1];
        }
      }
      FilterKeepsUniqueIds(rest, keep);
      if keep(models[0]) {
        var r := Filter(rest, keep);
        forall m | m in r ensures m.id != models[0].id {
          var k :| 0 <= k < |rest| && rest[k] == m;
          assert models[k + 1] == m;
        }
        var f := [models[0]] + r;
        forall i, j | 0 <= i < j < |f| ensures f[i].id != f[j].id {
          assert f[j] == r[j - 1] && f[j] in r;
          if i > 0 {
            assert f[i] == r[i - 1];
          }
        }
      }
    }
  }

  /** Removing an id that no entry carries leaves the catalog as it was. */
  lemma {:induction false} RemoveAbsent(models: seq<ModelConfig>, id: string)
    requires !HasId(models, id)
    ensures WithoutId(models, id) == models
  {
    forall m | m in models ensures OtherId(id)(m) {
      var k :| 0 <= k < |models| && models[k] == m;
    }
    FilterKeepsAll(models, OtherId(id));
  }

  /** Removing the same id twice is removing it once. */
  lemma {:induction false} RemoveIdempotent(models: seq<ModelConfig>, id: string)
    ensures WithoutId(WithoutId(models, id), id) == WithoutId(models, id)
  {
    FilterIdempotent(models, OtherId(id));
  }

  /** The entries that survive a removal keep their relative order. */
  lemma {:induction false} RemoveKeepsOrder(models: seq<ModelConfig>, id: string)
    ensures IsSubsequence(WithoutId(models, id), models)
  {
    FilterIsSubsequence(models, OtherId(id));
  }

  /** A removal keeps ids unique. */
  lemma {:induction false} RemoveKeepsUniqueIds(models: seq<ModelConfig>, id: string)
    requires UniqueIds(models)
    ensures UniqueIds(WithoutId(models, id))
  {
    FilterKeepsUniqueIds(models, OtherId(id));
  }

  /** Why `addModel` refused a model, or the catalog it produced. */
  datatype AddOutcome = Added(models: seq<ModelConfig>) | DuplicateId | ProviderNotAllowed

  /**
   * `addModel`'s decision: a duplicate id is refused first, then a provider outside the
   * allow-list; otherwise the model is appended.
   */
  function TryAdd(catalog: seq<ModelConfig>, model: ModelConfig): (r: AddOutcome)
    ensures r.DuplicateId? <==> HasId(catalog, model.id)
    ensures r.ProviderNotAllowed? <==> !HasId(catalog, model.id) && !IsAllowedProvider(model.provider)
    ensures r.Added? ==>
              |r.models| == |catalog| + 1 && r.models[..|catalog|] == catalog && r.models[|catalog|] == model
    ensures r.Added? && UniqueIds(catalog) ==> UniqueIds(r.models)
    ensures r.Added? && AllAllowed(catalog) ==> AllAllowed(r.models)
  {
    if HasId(catalog, model.id) then DuplicateId
    else if !IsAllowedProvider(model.provider) then ProviderNotAllowed
    else Added(catalog + [model])
  }

  /** Adding a model and then removing its id gives back the catalog from before the add. */
  lemma {:induction false} AddThenRemove(catalog: seq<ModelConfig>, model: ModelConfig)
    requires TryAdd(catalog, model).Added?
    ensures WithoutId(TryAdd(catalog, model).models, model.id) == catalog
  {
    var keep := OtherId(model.id);
    FilterAppend(catalog, [model], keep);
    RemoveAbsent(catalog, model.id);
    assert Filter([model], keep) == [];
  }
}
