/**
 * How the settings hook reconciles what was saved with the allow-list when it loads.
 * Each function returns the value the hook adopts, or `None` when it keeps what it
 * already holds (nothing stored, or a value that could not be parsed).
 */
module Reconcile {
  import opened Wrappers
  import opened Filtering
  import opened Models
  import opened Catalog
  import opened Storage

  /**
   * The saved active model is adopted as stored when its id is one of the allowed ids;
   * any other parsed model is replaced by the default model.
   */
  function LoadActive(saved: Stored<ModelConfig>): (r: Option<ModelConfig>)
    ensures r.Some? <==> saved.Parsed?
    ensures r.Some? ==> HasId(AllowList, r.value.id)
    ensures r.Some? ==> (r.value == saved.value <==> HasId(AllowList, saved.value.id))
    ensures r.Some? && r.value != saved.value ==> r.value == DefaultModel
  {
    match saved
    case Parsed(m) =>
      if HasId(AllowList, m.id) then Some(m)
      else
        assert AllowList[0].id == DefaultModel.id;
        Some(DefaultModel)
    case _ => None
  }

  /**
   * A parsed saved catalog is cut down to the entries with an accepted provider; if none
   * is left, the allow-list itself is adopted.
   */
  function LoadCatalog(saved: Stored<seq<ModelConfig>>): (r: Option<seq<ModelConfig>>)
    ensures r.Some? <==> saved.Parsed?
    ensures r.Some? ==> r.value != [] && AllAllowed(r.value)
    ensures r.Some? ==> (r.value == AllowedOnly(saved.value) <==> AllowedOnly(saved.value) != [])
    ensures r.Some? && AllowedOnly(saved.value) == [] ==> r.value == AllowList
  {
    match saved
    case Parsed(models) =>
      var kept := AllowedOnly(models);
      AllowListIsValid();
      if kept != [] then Some(kept) else Some(AllowList)
    case _ => None
  }

  /** The active model is not checked against the loaded catalog: both can load and disagree. */
  lemma ActiveMayLieOutsideCatalog()
    ensures LoadActive(Parsed(AllowList[0])) == Some(AllowList[0])
    ensures LoadCatalog(Parsed([AllowList[1]])) == Some([AllowList[1]])
    ensures AllowList[0] !in [AllowList[1]]
  {
    AllowListIsValid();
    FilterKeepsAll([AllowList[1]], AllowedModel);
  }

  /** A saved catalog that is non-empty and fully allowed is adopted exactly as stored. */
  lemma {:induction false} LoadCatalogKeepsValidCatalog(saved: seq<ModelConfig>)
    requires saved != [] && AllAllowed(saved)
    ensures LoadCatalog(Parsed(saved)) == Some(saved)
  {
    FilterKeepsAll(saved, AllowedModel);
  }

  /** Loading keeps the saved entries in their order, unless it falls back to the allow-list. */
  lemma {:induction false} LoadCatalogKeepsOrder(saved: seq<ModelConfig>)
    ensures LoadCatalog(Parsed(saved)).value == AllowList || IsSubsequence(LoadCatalog(Parsed(saved)).value, saved)
  {
    FilterIsSubsequence(saved, AllowedModel);
  }

  /** Loading a saved catalog with unique ids yields a catalog with unique ids. */
  lemma {:induction false} LoadCatalogKeepsUniqueIds(saved: seq<ModelConfig>)
    requires UniqueIds(saved)
    ensures UniqueIds(LoadCatalog(Parsed(saved)).value)
  {
    FilterKeepsUniqueIds(saved, AllowedModel);
    AllowListIsValid();
  }

  /** A saved catalog holding only a model of another provider loads as the allow-list. */
  lemma RefusedProviderLoadsAllowList()
    ensures LoadCatalog(Parsed([ModelConfig("x", "X", "anthropic", "")])) == Some(AllowList)
  {
    assert !AllowedModel(ModelConfig("x", "X", "anthropic", ""));
  }
}
