/** The older model registry of src/model/manager.rs, whose models answer a
    prediction with a string. */
module LegacyModelManagement {
  import opened Wrappers
  import opened ModelUtils

  const MODEL_NOT_FOUND := "Model not found"

  /** A model of the older backend interface once loaded: `predict` gives a
      string or an error message. */
  datatype LegacyModel = LegacyModel(predict: seq<string> -> Result<string>)

  class ModelManager {
    var models: map<nat, LegacyModel>
    var nextId: nat

    ghost predicate Valid()
      reads this
    {
      nextId >= 1 && forall id :: id in models ==> 1 <= id < nextId
    }

    /** `ModelManager::new()`: no models, and the counter at 1. */
    constructor ()
      ensures Valid()
      ensures models == map[] && nextId == 1
    {
      models := map[];
      nextId := 1;
    }

    /** `load_model`: `loaded` is the backend's own load of `modelPath`, whose
        error is passed on as a message. */
    method LoadModel(modelPath: string, modelType: Backend, loaded: Result<LegacyModel>) returns (r: Result<nat>)
      requires Valid()
      modifies this
      ensures Valid()
      ensures loaded.Ok? ==> r == Ok(old(nextId)) && old(nextId) !in old(models)
      ensures loaded.Ok? ==> nextId == old(nextId) + 1 && models == old(models)[old(nextId) := loaded.value]
      ensures loaded.Ok? ==> r.value in models
      ensures !loaded.Ok? ==> r == Propagate(loaded) && nextId == old(nextId) && models == old(models)
    {
      match modelType
      case ONNX =>
      if !loaded.Ok? {
        return Propagate(loaded);
      }
      var modelId := nextId;
      nextId := nextId + 1;
      models := models[modelId := loaded.value];
      r := Ok(modelId);
    }

    /** `predict`: unknown ids fail; known ones give the model's answer, its
        error text becoming the message. */
    method Predict(modelId: nat, texts: seq<string>) returns (r: Result<string>)
      ensures modelId !in models ==> r == Err(MODEL_NOT_FOUND)
      ensures modelId in models ==> r == models[modelId].predict(texts)
    {
      if modelId in models {
        r := models[modelId].predict(texts);
      } else {
        r := Err(MODEL_NOT_FOUND);
      }
    }
  }

  /** Successive successful loads return consecutive ids. */
  method ConsecutiveIds(m: ModelManager, a: LegacyModel, b: LegacyModel) returns (first: Result<nat>, second: Result<nat>)
    requires m.Valid()
    modifies m
    ensures first.Ok? && second.Ok? && second.value == first.value + 1
    ensures first.value in m.models && second.value in m.models
  {
    first := m.LoadModel("first", ONNX, Ok(a));
    second := m.LoadModel("second", ONNX, Ok(b));
  }
}
