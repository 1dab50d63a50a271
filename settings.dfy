/**
 * The settings hook as an object: the model catalog, the active model, the cached
 * credential maps and the log of toasts it has shown, over the local storage and the
 * credential service it is given.
 */
module Settings {
  import opened Wrappers
  import opened Models
  import opened Catalog
  import opened Storage
  import opened Reconcile
  import opened Notifications
  import opened Credentials

  /** The endpoint every base URL is set to, whatever URL the caller passes. */
  const PinnedBaseUrl: string := "https://openrouter.ai/api/v1"

  class ChatSettings {
    const storage: LocalStorage
    const service: CredentialService

    /** `availableModels`. */
    var catalog: seq<ModelConfig>
    /** `activeModel`. */
    var active: ModelConfig
    /** The local copies of the service's maps (`apiKeys`, `baseUrls`). */
    var apiKeys: map<string, string>
    var baseUrls: map<string, string>
    /** Every toast shown so far, oldest first. */
    var events: seq<Toast>

    /** Every catalog entry has an accepted provider. */
    ghost predicate Valid()
      reads this
    {
      AllAllowed(catalog)
    }

    /** The state before loading: the allow-list, its first model, and empty credential maps. */
    constructor (storage: LocalStorage, service: CredentialService)
      ensures Valid()
      ensures this.storage == storage && this.service == service
      ensures catalog == AllowList && active == DefaultModel
      ensures apiKeys == map[] && baseUrls == map[] && events == []
    {
      this.storage := storage;
      this.service := service;
      catalog := AllowList;
      active := DefaultModel;
      apiKeys := map[];
      baseUrls := map[];
      events := [];
      AllowListIsValid();
    }

    /**
     * The load on mount: the saved active model and catalog are reconciled with the allow-list,
     * and the credential maps are copied from the service. A key is rewritten exactly when a
     * value was parsed from it; an absent or unreadable key is left as it was.
     */
    method Load()
      requires Valid()
      modifies this, storage
      ensures Valid()
      ensures active == LoadActive(old(storage.activeModel)).GetOr(old(active))
      ensures catalog == LoadCatalog(old(storage.availableModels)).GetOr(old(catalog))
      ensures storage.activeModel ==
                if old(storage.activeModel).Parsed? then Parsed(active) else old(storage.activeModel)
      ensures storage.availableModels ==
                if old(storage.availableModels).Parsed? then Parsed(catalog) else old(storage.availableModels)
      ensures apiKeys == service.apiKeys && baseUrls == service.baseUrls
      ensures events == old(events)
    {
      var loadedActive := LoadActive(storage.activeModel);
      if loadedActive.Some? {
        active := loadedActive.value;
        storage.activeModel := Parsed(active);
      }
      apiKeys := service.apiKeys;
      baseUrls := service.baseUrls;
      var loadedCatalog := LoadCatalog(storage.availableModels);
      if loadedCatalog.Some? {
        catalog := loadedCatalog.value;
        storage.availableModels := Parsed(catalog);
      }
    }

    /** Stores `key` for `provider` in the service, refreshes the cached map, and confirms it. */
    method SetApiKey(key: string, provider: string := "openai")
      modifies this, service
      ensures service.GetApiKey(provider) == key
      ensures service.apiKeys == old(service.apiKeys)[provider := key]
      ensures service.baseUrls == old(service.baseUrls)
      ensures apiKeys == service.apiKeys && baseUrls == old(baseUrls)
      ensures events == old(events) + [ApiKeyUpdated(provider)]
      ensures catalog == old(catalog) && active == old(active)
    {
      service.SetApiKey(key, provider);
      apiKeys := service.apiKeys;
      events := events + [ApiKeyUpdated(provider)];
    }

    /** Pins the base URL of `provider` to the fixed endpoint, ignoring `url`, and confirms it. */
    method SetBaseUrl(url: string, provider: string := "openai")
      modifies this, service
      ensures service.GetBaseUrl(provider) == PinnedBaseUrl
      ensures service.baseUrls == old(service.baseUrls)[provider := PinnedBaseUrl]
      ensures service.apiKeys == old(service.apiKeys)
      ensures baseUrls == service.baseUrls && apiKeys == old(apiKeys)
      ensures events == old(events) + [BaseUrlUpdated(provider)]
      ensures catalog == old(catalog) && active == old(active)
    {
      service.SetBaseUrl(PinnedBaseUrl, provider);
      baseUrls := service.baseUrls;
      events := events + [BaseUrlUpdated(provider)];
    }

    /** A pass-through read of the service's key for `provider`; empty when none is stored. */
    function GetApiKey(provider: string := "openai"): (key: string)
      reads service
      ensures provider in service.apiKeys ==> key == service.apiKeys[provider]
      ensures provider !in service.apiKeys ==> key == ""
    {
      service.GetApiKey(provider)
    }

    /** A pass-through read of the service's base URL for `provider`; empty when none is stored. */
    function GetBaseUrl(provider: string := "openai"): (url: string)
      reads service
      ensures provider in service.baseUrls ==> url == service.baseUrls[provider]
      ensures provider !in service.baseUrls ==> url == ""
    {
      service.GetBaseUrl(provider)
    }

    /** The hook's cached copy of all API keys, not a fresh read of the service. */
    function GetAllApiKeys(): (keys: map<string, string>)
      reads this
      ensures keys == apiKeys
    {
      apiKeys
    }

    /** The hook's cached copy of all base URLs, not a fresh read of the service. */
    function GetAllBaseUrls(): (urls: map<string, string>)
      reads this
      ensures urls == baseUrls
    {
      baseUrls
    }

    /** Replaces the active model, without checking it against the catalog, and saves it. */
    method SetActiveModel(model: ModelConfig)
      modifies this, storage
      ensures active == model && storage.activeModel == Parsed(model)
      ensures storage.availableModels == old(storage.availableModels)
      ensures catalog == old(catalog) && events == old(events)
      ensures apiKeys == old(apiKeys) && baseUrls == old(baseUrls)
    {
      active := model;
      storage.activeModel := Parsed(model);
    }

    /**
     * Removes every entry carrying `id`. When the active model carries it, the active model
     * moves to the first entry with another id (or the default model) and that change is
     * announced first; the removal is announced in every case.
     */
    method RemoveModel(id: string)
      requires Valid()
      modifies this, storage
      ensures Valid()
      ensures catalog == WithoutId(old(catalog), id)
      ensures active == Reassign(old(active), old(catalog), id)
      ensures events == old(events) + (if old(active).id == id then [ActiveModelChanged(active)] else [])
                                   + [ModelRemoved]
      ensures storage.availableModels == Parsed(catalog)
      ensures storage.activeModel == if old(active).id == id then Parsed(active) else old(storage.activeModel)
      ensures UniqueIds(old(catalog)) ==> UniqueIds(catalog)
      ensures apiKeys == old(apiKeys) && baseUrls == old(baseUrls)
    {
      if active.id == id {
        active := Reassign(active, catalog, id);
        storage.activeModel := Parsed(active);
        events := events + [ActiveModelChanged(active)];
      }
      if UniqueIds(catalog) {
        RemoveKeepsUniqueIds(catalog, id);
      }
      catalog := WithoutId(catalog, id);
      storage.availableModels := Parsed(catalog);
      events := events + [ModelRemoved];
    }

    /**
     * Appends `model` unless an entry already has its id (checked first) or its provider is
     * not accepted; a refusal changes nothing but the log and shows a destructive toast.
     */
    method AddModel(model: ModelConfig)
      requires Valid()
      modifies this, storage
      ensures Valid()
      ensures HasId(old(catalog), model.id) ==>
                catalog == old(catalog) && events == old(events) + [DuplicateModel]
      ensures !HasId(old(catalog), model.id) && !IsAllowedProvider(model.provider) ==>
                catalog == old(catalog) && events == old(events) + [InvalidProvider]
      ensures !HasId(old(catalog), model.id) && IsAllowedProvider(model.provider) ==>
                catalog == old(catalog) + [model] && events == old(events) + [ModelAdded(model)]
      ensures storage.availableModels == if catalog == old(catalog) then old(storage.availableModels) else Parsed(catalog)
      ensures UniqueIds(old(catalog)) ==> UniqueIds(catalog)
      ensures storage.activeModel == old(storage.activeModel) && active == old(active)
      ensures apiKeys == old(apiKeys) && baseUrls == old(baseUrls)
    {
      match TryAdd(catalog, model)
      case DuplicateId =>
        events := events + [DuplicateModel];
      case ProviderNotAllowed =>
        events := events + [InvalidProvider];
      case Added(models) =>
        catalog := models;
        storage.availableModels := Parsed(catalog);
        events := events + [ModelAdded(model)];
    }
  }

  /**
   * Catalog [A, B] with A active: removing A makes B active, leaves [B], and shows two toasts,
   * the change of active model first.
   */
  method RemoveActiveScenario() returns (active: ModelConfig, catalog: seq<ModelConfig>, events: seq<Toast>)
    ensures active == AllowList[3] && catalog == [AllowList[3]]
    ensures events == [ActiveModelChanged(AllowList[3]), ModelRemoved]
  {
    var a, b := AllowList[0], AllowList[3];
    assert a.id[0] != b.id[0];
    assert HasId(AllowList, a.id);
    var storage := new LocalStorage(Parsed(a), Parsed([a, b]));
    var service := new CredentialService(map[], map[]);
    var settings := new ChatSettings(storage, service);
    AllowListIsValid();
    LoadCatalogKeepsValidCatalog([a, b]);
    settings.Load();
    assert settings.active == a && settings.catalog == [a, b];
    assert WithoutId([b], a.id) == [b];
    assert WithoutId([a, b], a.id) == [b] by {
      assert [a, b][1..] == [b];
    }
    settings.RemoveModel(a.id);
    active, catalog, events := settings.active, settings.catalog, settings.events;
  }
}
