/** The model registry of src/model/model_manager.rs: an id allocator and a
    map from ids to loaded models. */
module ModelManagement {
  import opened Wrappers
  import opened ModelUtils

  const MODEL_NOT_FOUND := "Model not found"
  const MODEL_NOT_LOADED := "Model not loaded"
  const INT8_UNIMPLEMENTED := "not implemented: int8 dynamic quantization not yet implemented"

  /** What `output_dtype` answers for a registry holding `models`. */
  function OutputDTypeOf(models: map<nat, LoadedModel>, id: nat): Result<ModelOutputDType> {
    if id in models then models[id].outputDType else Err(MODEL_NOT_LOADED)
  }

  /** What `output_dim` answers for a registry holding `models`. */
  function OutputDimOf(models: map<nat, LoadedModel>, id: nat): Result<int> {
    if id in models then models[id].outputDim else Err(MODEL_NOT_LOADED)
  }

  /** What `predict` answers for a registry holding `models`: the output
      dtype chooses the prediction, whose failure is unwrapped (an error
      becomes the unwrap panic, a panic of the backend stays that panic). */
  function PredictOf(models: map<nat, LoadedModel>, id: nat, texts: seq<string>): Result<Embeddings> {
    match OutputDTypeOf(models, id)
    case Ok(F16) =>
      var e := Unwrap(models[id].predictF16(texts));
      if e.Ok? then Ok(EmbeddingsF16(e.value)) else Propagate(e)
    case Ok(F32) =>
      var e := Unwrap(models[id].predictF32(texts));
      if e.Ok? then Ok(EmbeddingsF32(e.value)) else Propagate(e)
    case Ok(Int8) => Panic(INT8_UNIMPLEMENTED)
    case Err(m) => Err(m)
    case Panic(p) => Panic(p)
  }

  /** `predict` on an unknown id fails with the dtype lookup's message. */
  lemma PredictUnknownId(models: map<nat, LoadedModel>, id: nat, texts: seq<string>)
    requires id !in models
    ensures PredictOf(models, id, texts) == Err(MODEL_NOT_LOADED)
  {
  }

  /** A successful `predict` is tagged with the model's dtype and carries the
      array the matching backend call gave; Int8 never succeeds. */
  lemma PredictFollowsDType(models: map<nat, LoadedModel>, id: nat, texts: seq<string>)
    requires PredictOf(models, id, texts).Ok?
    ensures id in models
    ensures models[id].outputDType == Ok(F16) ==>
      models[id].predictF16(texts).Ok? && PredictOf(models, id, texts) == Ok(EmbeddingsF16(models[id].predictF16(texts).value))
    ensures models[id].outputDType == Ok(F32) ==>
      models[id].predictF32(texts).Ok? && PredictOf(models, id, texts) == Ok(EmbeddingsF32(models[id].predictF32(texts).value))
    ensures models[id].outputDType != Ok(Int8)
  {
  }

  /** A failed prediction is unwrapped: a backend error becomes the unwrap
      panic, and a panic inside the backend is passed on as it is. */
  lemma PredictFailureIsUnwrapped(models: map<nat, LoadedModel>, id: nat, texts: seq<string>)
    requires id in models && models[id].outputDType.Ok? && models[id].outputDType.value != Int8
    ensures var p := if models[id].outputDType == Ok(F16) then models[id].predictF16(texts) else models[id].predictF32(texts);
      && (p.Err? ==> PredictOf(models, id, texts) == Panic(UNWRAP_PANIC))
      && (p.Panic? ==> PredictOf(models, id, texts) == Panic(p.reason))
  {
  }

  class ModelManager {
    var models: map<nat, LoadedModel>
    var nextId: nat

    /** Every id in use was handed out before `nextId`, and ids start at 1. */
    ghost predicate Valid()
      reads this
    {
      nextId >= 1 && forall id :: id in models ==> 1 <= id < nextId
    }

    /** `ModelManager::new()`. */
    constructor ()
      ensures Valid()
      ensures models == map[] && nextId == 1
    {
      models := map[];
      nextId := 1;
    }

    /** `load_model`: `loaded` is what the backend's own load gave for
        `modelPath`. Only a successful load reads and bumps the counter. */
    method LoadModel(modelPath: string, modelType: Backend, loaded: Result<LoadedModel>) returns (r: Result<nat>)
      requires Valid()
      modifies this
      ensures Valid()
      ensures loaded.Ok? ==> r == Ok(old(nextId)) && old(nextId) !in old(models)
      ensures loaded.Ok? ==> nextId == old(nextId) + 1 && models == old(models)[old(nextId) := loaded.value]
      ensures !loaded.Ok? ==> r == Propagate(loaded) && nextId == old(nextId) && models == old(models)
    {
      match modelType
      case ONNX =>
      if !loaded.Ok? {
        return Propagate(loaded);
      }
      var modelId := nextId;
      nextId := nextId + 1;
      models := models[modelId := loaded.value];
      r := Ok(modelId);
    }

    /** `predict_f16`. */
    method PredictF16(modelId: nat, texts: seq<string>) returns (r: Result<Array2>)
      ensures modelId !in models ==> r == Err(MODEL_NOT_FOUND)
      ensures modelId in models ==> r == models[modelId].predictF16(texts)
    {
      if modelId in models {
        r := models[modelId].predictF16(texts);
      } else {
        r := Err(MODEL_NOT_FOUND);
      }
    }

    /** `predict_f32`. */
    method PredictF32(modelId: nat, texts: seq<string>) returns (r: Result<Array2>)
      ensures modelId !in models ==> r == Err(MODEL_NOT_FOUND)
      ensures modelId in models ==> r == models[modelId].predictF32(texts)
    {
      if modelId in models {
        r := models[modelId].predictF32(texts);
      } else {
        r := Err(MODEL_NOT_FOUND);
      }
    }

    /** `output_dtype`. */
    method OutputDType(modelId: nat) returns (r: Result<ModelOutputDType>)
      ensures modelId !in models ==> r == Err(MODEL_NOT_LOADED)
      ensures modelId in models ==> r == models[modelId].outputDType
    {
      if modelId in models {
        r := models[modelId].outputDType;
      } else {
        r := Err(MODEL_NOT_LOADED);
      }
    }

    /** `output_dim`. */
    method OutputDim(modelId: nat) returns (r: Result<int>)
      ensures modelId !in models ==> r == Err(MODEL_NOT_LOADED)
      ensures modelId in models ==> r == models[modelId].outputDim
    {
      if modelId in models {
        r := models[modelId].outputDim;
      } else {
        r := Err(MODEL_NOT_LOADED);
      }
    }

    /** `predict`: the dtype lookup first, then the matching prediction. */
    method Predict(modelId: nat, texts: seq<string>) returns (r: Result<Embeddings>)
      ensures r == PredictOf(models, modelId, texts)
      ensures modelId !in models ==> r == Err(MODEL_NOT_LOADED)
      ensures modelId in models && models[modelId].outputDType == Ok(Int8) ==> r.Panic?
      ensures r.Ok? && models[modelId].outputDType == Ok(F16) ==> r.value.EmbeddingsF16?
      ensures r.Ok? && models[modelId].outputDType == Ok(F32) ==> r.value.EmbeddingsF32?
    {
      var outputDType := OutputDType(modelId);
      if !outputDType.Ok? {
        return Propagate(outputDType);
      }
      match outputDType.value
      case F16 =>
        var e := PredictF16(modelId, texts);
        e := Unwrap(e);
        if !e.Ok? {
          return Propagate(e);
        }
        r := Ok(EmbeddingsF16(e.value));
      case F32 =>
        var e := PredictF32(modelId, texts);
        e := Unwrap(e);
        if !e.Ok? {
          return Propagate(e);
        }
        r := Ok(EmbeddingsF32(e.value));
      case Int8 =>
        r := Panic(INT8_UNIMPLEMENTED);
    }
  }

  /** A fresh manager hands out 1 and then 2; a failed load in between
      consumes no id. */
  method IdsOfAFreshManager(a: LoadedModel, b: LoadedModel, why: string) returns (first: Result<nat>, failed: Result<nat>, second: Result<nat>)
    ensures first == Ok(1) && failed == Err(why) && second == Ok(2)
  {
    var m := new ModelManager();
    first := m.LoadModel("a", ONNX, Ok(a));
    failed := m.LoadModel("b", ONNX, Err(why));
    second := m.LoadModel("b", ONNX, Ok(b));
  }
}
