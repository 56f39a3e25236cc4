/** The collection registry of src/collection/collection_manager.rs: the
    collections by name, one model manager, and which model name was
    loaded under which id. */
module CollectionManagement {
  import opened Wrappers
  import opened CollectionUtils
  import opened ModelUtils
  import opened ModelManagement
  import opened Usearch
  import opened VectorIndexes
  import opened CollectionTypes

  function MissingCollection(name: string): string {
    "Collection '" + name + "' does not exist"
  }

  function ModelNotLoaded(model: string): string {
    "Model '" + model + "' is not loaded"
  }

  /** Loading succeeds for every requested name that `lookup` lacks;
      `loader` gives what the ONNX backend's load gives for a model path. */
  predicate LoadsSucceed(requested: seq<string>, lookup: map<string, nat>, loader: string -> Result<LoadedModel>) {
    forall m :: m in requested && m !in lookup ==> loader(m).Ok?
  }

  class CollectionManager {
    var collections: map<string, Collection>
    var modelManager: ModelManager
    var modelLookup: map<string, nat>

    /** Every looked-up id names a model the manager holds. */
    ghost predicate ModelsValid()
      reads this, modelManager
    {
      modelManager.Valid() && forall m :: m in modelLookup ==> modelLookup[m] in modelManager.models
    }

    /** The vector indexes of all collections. */
    ghost function Indexes(): set<VectorIndex>
      reads this, collections.Values
    {
      set c, v | c in collections.Values && v in c.vectorIndex.Values :: v
    }

    ghost predicate CollectionsValid()
      reads this, collections.Values, Indexes()
    {
      forall n :: n in collections ==> collections[n].Valid()
    }

    ghost predicate Valid()
      reads this, modelManager, collections.Values, Indexes()
    {
      ModelsValid() && CollectionsValid()
    }

    /** `CollectionManager::new()`. */
    constructor ()
      ensures Valid()
      ensures collections == map[] && modelLookup == map[]
      ensures fresh(modelManager) && modelManager.models == map[] && modelManager.nextId == 1
    {
      collections := map[];
      modelManager := new ModelManager();
      modelLookup := map[];
    }

    /** One turn of the model loop: a name the lookup lacks is loaded, the
        load unwrapped, and its id recorded under the name. */
    method LoadIfAbsent(m: string, loader: string -> Result<LoadedModel>) returns (r: Result<()>)
      requires ModelsValid()
      modifies this`modelLookup, modelManager
      ensures ModelsValid()
      ensures m in old(modelLookup) || !loader(m).Ok? ==>
        modelLookup == old(modelLookup) && modelManager.models == old(modelManager.models)
        && modelManager.nextId == old(modelManager.nextId)
      ensures r.Ok? <==> m in old(modelLookup) || loader(m).Ok?
      ensures !r.Ok? ==> r.Panic?
      ensures m !in old(modelLookup) && loader(m).Ok? ==>
        && modelLookup == old(modelLookup)[m := old(modelManager.nextId)]
        && modelManager.models == old(modelManager.models)[old(modelManager.nextId) := loader(m).value]
        && old(modelManager.nextId) !in old(modelManager.models)
    {
      r := Ok(());
      if m !in modelLookup {
        var id := modelManager.LoadModel(m, ONNX, loader(m));
        id := Unwrap(id);
        if !id.Ok? {
          return Propagate(id);
        }
        modelLookup := modelLookup[m := id.value];
      }
    }

    /** The model loop shared by `create_collection` and `load_collection`:
        each requested name the lookup lacks is loaded once and recorded;
        a failed load is unwrapped. Names already looked up keep their id. */
    method EnsureModelsLoaded(requested: seq<string>, loader: string -> Result<LoadedModel>) returns (r: Result<()>)
      requires ModelsValid()
      modifies this`modelLookup, modelManager
      ensures ModelsValid()
      ensures r.Ok? <==> LoadsSucceed(requested, old(modelLookup), loader)
      ensures !r.Ok? ==> r.Panic?
      ensures r.Ok? ==> forall m :: m in requested ==> m in modelLookup
      ensures forall m :: m in old(modelLookup) ==> m in modelLookup && modelLookup[m] == old(modelLookup[m])
      ensures forall m :: m in modelLookup && m !in old(modelLookup) ==>
        m in requested && loader(m).Ok? && modelManager.models[modelLookup[m]] == loader(m).value
      ensures forall id :: id in old(modelManager.models) ==>
        id in modelManager.models && modelManager.models[id] == old(modelManager.models[id])
      ensures (forall m :: m in requested ==> m in old(modelLookup)) ==>
        modelLookup == old(modelLookup) && modelManager.models == old(modelManager.models)
        && modelManager.nextId == old(modelManager.nextId)
    {
      r := Ok(());
      if |requested| == 0 {
        return;
      }
      ghost var allKnown := forall m :: m in requested ==> m in modelLookup;
      var i := 0;
      while i < |requested|
        invariant 0 <= i <= |requested|
        invariant r.Ok? && ModelsValid()
        invariant LoadsSucceed(requested[..i], old(modelLookup), loader)
        invariant forall m :: m in requested[..i] ==> m in modelLookup
        invariant forall m :: m in old(modelLookup) ==> m in modelLookup && modelLookup[m] == old(modelLookup[m])
        invariant forall m :: m in modelLookup && m !in old(modelLookup) ==>
          m in requested[..i] && loader(m).Ok? && modelManager.models[modelLookup[m]] == loader(m).value
        invariant forall id :: id in old(modelManager.models) ==>
          id in modelManager.models && modelManager.models[id] == old(modelManager.models[id])
        invariant allKnown ==>
          modelLookup == old(modelLookup) && modelManager.models == old(modelManager.models)
          && modelManager.nextId == old(modelManager.nextId)
      {
        var m := requested[i];
        assert requested[..i + 1] == requested[..i] + [m];
        r := LoadIfAbsent(m, loader);
        if !r.Ok? {
          return;
        }
        i := i + 1;
      }
      assert requested[..i] == requested;
    }

    /** The common tail of `create_collection` and `load_collection`: the
        model loop for what the collection requests, then the collection
        stored under `name`. */
    method StoreWithModels(name: string, collection: Collection, loader: string -> Result<LoadedModel>)
      returns (r: Result<()>)
      requires Valid() && collection.Valid()
      modifies this, modelManager
      ensures Valid()
      ensures modelManager == old(modelManager)
      ensures r.Ok? <==> LoadsSucceed([collection.config.modelName], old(modelLookup), loader)
      ensures !r.Ok? ==> r.Panic? && collections == old(collections)
      ensures r.Ok? ==> collections == old(collections)[name := collection] && collection.config.modelName in modelLookup
      ensures forall m :: m in old(modelLookup) ==> m in modelLookup && modelLookup[m] == old(modelLookup[m])
      ensures collection.config.modelName in old(modelLookup) ==>
        modelLookup == old(modelLookup) && modelManager.models == old(modelManager.models)
        && modelManager.nextId == old(modelManager.nextId)
    {
      var requested := collection.RequestedModels();
      r := EnsureModelsLoaded(requested, loader);
      if !r.Ok? {
        return;
      }
      collections := collections[name := collection];
      r := Ok(());
    }

    /** `create_collection`: `prepared` is what preparing the collection's
        directory, database and config file gives. The collection is stored
        under its config's name, replacing any collection of that name. */
    method CreateCollection(config: CollectionConfig, overwrite: bool, prepared: Result<Database>,
                            loader: string -> Result<LoadedModel>)
      returns (r: Result<()>)
      requires Valid()
      modifies this, modelManager
      ensures Valid()
      ensures modelManager == old(modelManager)
      ensures !prepared.Ok? ==>
        (r == Propagate(prepared) && collections == old(collections)
         && modelLookup == old(modelLookup) && modelManager.models == old(modelManager.models))
      ensures prepared.Ok? ==> (r.Ok? <==> LoadsSucceed([config.modelName], old(modelLookup), loader))
      ensures !r.Ok? ==> collections == old(collections)
      ensures r.Ok? ==>
        && config.name in collections && fresh(collections[config.name])
        && collections == old(collections)[config.name := collections[config.name]]
        && collections[config.name].config == config
        && config.modelName in modelLookup
      ensures forall m :: m in old(modelLookup) ==> m in modelLookup && modelLookup[m] == old(modelLookup[m])
      ensures config.modelName in old(modelLookup) ==>
        modelLookup == old(modelLookup) && modelManager.models == old(modelManager.models)
        && modelManager.nextId == old(modelManager.nextId)
    {
      var name := config.name;
      var created := Collection.New(config, overwrite, prepared);
      if !created.Ok? {
        return Propagate(created);
      }
      r := StoreWithModels(name, created.value, loader);
    }

    /** `load_collection`: `Collection::from` under `home`, unwrapped, then
        the same model loop; stored under `name`. */
    method LoadCollection(name: string, home: string, disk: OnDisk, loader: string -> Result<LoadedModel>)
      returns (r: Result<()>)
      requires Valid()
      modifies this, modelManager
      ensures Valid()
      ensures modelManager == old(modelManager)
      ensures !OpenCollection(disk).Ok? ==>
        (r.Panic? && collections == old(collections)
         && modelLookup == old(modelLookup) && modelManager.models == old(modelManager.models))
      ensures OpenCollection(disk).Ok? ==>
        (r.Ok? <==> LoadsSucceed([OpenCollection(disk).value.config.modelName], old(modelLookup), loader))
      ensures !r.Ok? ==> collections == old(collections)
      ensures r.Ok? ==>
        && name in collections && fresh(collections[name])
        && collections == old(collections)[name := collections[name]]
        && collections[name].config == OpenCollection(disk).value.config
        && collections[name].vectorIndex.Keys == {name}
        && OpenCollection(disk).value.config.modelName in modelLookup
      ensures forall m :: m in old(modelLookup) ==> m in modelLookup && modelLookup[m] == old(modelLookup[m])
      ensures OpenCollection(disk).Ok? && OpenCollection(disk).value.config.modelName in old(modelLookup) ==>
        modelLookup == old(modelLookup) && modelManager.models == old(modelManager.models)
        && modelManager.nextId == old(modelManager.nextId)
    {
      var loaded := Collection.From(name, home, disk);
      loaded := Unwrap(loaded);
      if !loaded.Ok? {
        return Propagate(loaded);
      }
      r := StoreWithModels(name, loaded.value, loader);
    }

    /** `get_collections`: every stored name once, in the map's order. */
    method GetCollections() returns (names: seq<string>)
      ensures forall n :: n in names <==> n in collections
      ensures |names| == |collections|
      ensures forall i, j :: 0 <= i < j < |names| ==> names[i] != names[j]
    {
      names := [];
      var remaining := collections.Keys;
      while remaining != {}
        invariant remaining <= collections.Keys
        invariant forall n :: n in names <==> n in collections.Keys - remaining
        invariant |names| + |remaining| == |collections.Keys|
        invariant forall i, j :: 0 <= i < j < |names| ==> names[i] != names[j]
        decreases |remaining|
      {
        var n :| n in remaining;
        assert n !in names;
        names := names + [n];
        remaining := remaining - {n};
      }
    }

    /** `get_collection_configs`: one config per stored collection, in the
        map's order, which `names` records. */
    method GetCollectionConfigs() returns (configs: seq<CollectionConfig>, ghost names: seq<string>)
      ensures |configs| == |names| == |collections|
      ensures forall n :: n in names <==> n in collections
      ensures forall i, j :: 0 <= i < j < |names| ==> names[i] != names[j]
      ensures forall i :: 0 <= i < |configs| ==> names[i] in collections && configs[i] == collections[names[i]].config
    {
      configs := [];
      names := [];
      var remaining := collections.Keys;
      while remaining != {}
        invariant remaining <= collections.Keys
        invariant |configs| == |names|
        invariant forall n :: n in names <==> n in collections.Keys - remaining
        invariant |names| + |remaining| == |collections.Keys|
        invariant forall i, j :: 0 <= i < j < |names| ==> names[i] != names[j]
        invariant forall i :: 0 <= i < |configs| ==> names[i] in collections && configs[i] == collections[names[i]].config
        decreases |remaining|
      {
        var n :| n in remaining;
        assert n !in names;
        configs := configs + [collections[n].config];
        names := names + [n];
        remaining := remaining - {n};
      }
    }

    /** `get_collection_config`. */
    method GetCollectionConfig(name: string) returns (r: Result<CollectionConfig>)
      ensures name !in collections ==> r == Err(MissingCollection(name))
      ensures name in collections ==> r == Ok(collections[name].config)
    {
      if name !in collections {
        return Err(MissingCollection(name));
      }
      r := Ok(collections[name].config);
    }

    /** `import_jsonl`: the named collection's import. */
    method ImportJsonl(name: string, jsonlPath: string) returns (r: Result<()>)
      ensures name !in collections ==> r == Err(MissingCollection(name))
      ensures name in collections ==>
        r == collections[name].conn.executeBatch(ImportStatement(collections[name].config.name, jsonlPath))
    {
      if name !in collections {
        return Err(MissingCollection(name));
      }
      r := collections[name].ImportJsonl(jsonlPath);
    }

    /** `embed_column`: the collection is looked up first, then its model's
        id; the column is embedded with the shared model manager. */
    method EmbedColumn(name: string, column: string, batchSize: nat, home: string) returns (r: Result<()>)
      requires Valid()
      modifies if name in collections then {collections[name]} + collections[name].vectorIndex.Values else {}
      ensures Valid()
      ensures name !in collections ==> r == Err(MissingCollection(name))
      ensures name in collections ==> var c := collections[name];
        c.config == old(c.config) && c.conn == old(c.conn)
      ensures name in collections ==> var c := collections[name];
        forall col :: col in old(c.vectorIndex) && col != column ==>
          col in c.vectorIndex && c.vectorIndex[col] == old(c.vectorIndex[col])
          && c.vectorIndex[col].index == old(c.vectorIndex[col].index)
          && c.vectorIndex[col].path == old(c.vectorIndex[col].path)
      ensures name in collections && column in old(collections[name].vectorIndex) ==> var c := collections[name];
        && column in c.vectorIndex
        && c.vectorIndex[column].path == old(c.vectorIndex[column].path)
        && c.vectorIndex[column].index.value.dimensions == old(c.vectorIndex[column].index.value.dimensions)
      ensures name in collections && collections[name].config.modelName !in modelLookup ==>
        r == Err(ModelNotLoaded(collections[name].config.modelName))
      ensures name in collections && collections[name].config.modelName in modelLookup ==>
        var c := collections[name];
        var job := EmbedJob(c.conn, modelManager.models, modelLookup[c.config.modelName], c.config.name, column, batchSize);
        && (batchSize == 0 ==> r == Panic(DIVIDE_BY_ZERO))
        && (batchSize > 0 ==>
             (r.Ok? <==> (column in old(c.vectorIndex) || OutputDimOf(job.models, job.modelId).Ok?)
                         && PlanEntries(job, EMBED_ROWS / batchSize).Ok?))
        && (batchSize > 0 && !r.Ok? ==> r.Panic?)
        && (r.Ok? ==>
             && column in c.vectorIndex
             && c.vectorIndex[column].index.value.entries
                == old(c.EntriesIn(column)) + PlanEntries(job, EMBED_ROWS / batchSize).value)
      ensures name in collections && column in old(collections[name].vectorIndex) ==>
        collections[name].vectorIndex == old(collections[name].vectorIndex)
      ensures name in collections && column !in old(collections[name].vectorIndex) ==> var c := collections[name];
        c.vectorIndex == old(c.vectorIndex) || (column in c.vectorIndex && c.vectorIndex == old(c.vectorIndex)[column := c.vectorIndex[column]])
      ensures name in collections && r.Ok? && column !in old(collections[name].vectorIndex) ==> var c := collections[name];
        && c.config.modelName in modelLookup
        && fresh(c.vectorIndex[column])
        && c.vectorIndex[column].path == IndexPath(home, c.config.name, column)
        && c.vectorIndex[column].index.value.dimensions
           == AsUsize(OutputDimOf(modelManager.models, modelLookup[c.config.modelName]).value)
    {
      if name !in collections {
        return Err(MissingCollection(name));
      }
      var collection := collections[name];
      var modelName := collection.config.modelName;
      if modelName !in modelLookup {
        return Err(ModelNotLoaded(modelName));
      }
      var modelId := modelLookup[modelName];
      r := collection.EmbedColumn(column, batchSize, modelManager, modelId, home);
    }
  }
}
