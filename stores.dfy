/** `getStore`: data stores created per model name, memoised in a map that
    lives as long as the library. */
module Stores {
  import opened Values

  /** Whether a call asks for one shared store per model. */
  predicate OneStorePerModel(config: Obj)
  {
    Truthy(Get(config, "oneStorePerModel"))
  }

  /** The class a new store is created from: `storeDefaultClass`, or
      `Ext.data.Store` when that is not set. */
  function StoreClass(config: Obj): (c: Value)
    ensures Truthy(Get(config, "storeDefaultClass")) ==> c == Get(config, "storeDefaultClass")
    ensures !Truthy(Get(config, "storeDefaultClass")) ==> c == Str("Ext.data.Store")
  {
    Or(Get(config, "storeDefaultClass"), Str("Ext.data.Store"))
  }

  /** The config a new store is created with: `model` set to the model name,
      then a copy of `storeDefaults`, which wins on a collision. */
  function StoreSettings(modelName: string, config: Obj): (settings: Obj)
    ensures settings.Keys == {"model"} + AsObj(Get(config, "storeDefaults")).Keys
    ensures forall k :: k in AsObj(Get(config, "storeDefaults")) ==>
      settings[k] == AsObj(Get(config, "storeDefaults"))[k]
    ensures "model" !in AsObj(Get(config, "storeDefaults")) ==> settings["model"] == Str(modelName)
  {
    Apply(map["model" := Str(modelName)], AsObj(Get(config, "storeDefaults")), map[])
  }

  /** What one `getStore` call does, given the cache before and after it and
      the store it returned: a shared store already cached is handed out
      again with the cache untouched; otherwise a store is made from the
      class and settings above, and it is cached only for a shared-store call. */
  ghost predicate StoreOutcome(before: map<string, Instance>, after: map<string, Instance>,
                               modelName: string, config: Obj, store: Instance)
  {
    if OneStorePerModel(config) && modelName in before then
      store == before[modelName] && after == before
    else
      && store.className == StoreClass(config)
      && store.settings == StoreSettings(modelName, config)
      && after == (if OneStorePerModel(config) then before[modelName := store] else before)
  }

  /** The cache only grows: nothing cached is ever replaced or dropped. */
  ghost predicate CacheExtends(before: map<string, Instance>, after: map<string, Instance>)
  {
    forall name :: name in before ==> name in after && after[name] == before[name]
  }

  class StoreCache {
    var stores: map<string, Instance>

    constructor ()
      ensures stores == map[]
    {
      stores := map[];
    }

    method GetStore(modelName: string, config: Obj) returns (store: Instance)
      modifies this
      ensures StoreOutcome(old(stores), stores, modelName, config, store)
      ensures !(OneStorePerModel(config) && modelName in old(stores)) ==> fresh(store)
      ensures CacheExtends(old(stores), stores)
    {
      if OneStorePerModel(config) && modelName in stores {
        return stores[modelName];
      }
      store := new Instance(StoreClass(config), StoreSettings(modelName, config));
      if OneStorePerModel(config) {
        stores := stores[modelName := store];
      }
    }
  }

  /** Two shared-store calls for the same model name return the identical
      store, and the second leaves the cache as the first left it. */
  lemma SharedStoreIsReused(c0: map<string, Instance>, c1: map<string, Instance>, c2: map<string, Instance>,
                            modelName: string, config1: Obj, config2: Obj, s1: Instance, s2: Instance)
    requires OneStorePerModel(config1) && OneStorePerModel(config2)
    requires StoreOutcome(c0, c1, modelName, config1, s1)
    requires StoreOutcome(c1, c2, modelName, config2, s2)
    ensures s2 == s1 && c2 == c1
  {
    assert modelName in c1 && c1[modelName] == s1;
  }

  /** Two calls asking for a shared store of one model, made on a fresh cache. */
  method SharedStoreTwice(modelName: string, config: Obj) returns (first: Instance, second: Instance)
    requires OneStorePerModel(config)
    ensures first == second
  {
    var cache := new StoreCache();
    first := cache.GetStore(modelName, config);
    second := cache.GetStore(modelName, config);
  }
}
