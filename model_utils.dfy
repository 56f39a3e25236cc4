/** The enums shared by the model code (src/model/model_utils.rs) and the
    backend models as the managers see them. */
module ModelUtils {
  import opened Wrappers

  datatype Backend = ONNX

  datatype ModelOutputDType = F32 | F16 | Int8

  /** A row-major 2-D array of scalars; floating-point values are only
      copied, never computed with, so reals stand in for them. */
  datatype Matrix = Matrix(rows: nat, dim: nat, data: seq<real>)
  type Array2 = m: Matrix | |m.data| == m.rows * m.dim witness Matrix(0, 0, [])

  datatype Embeddings = EmbeddingsF16(emb16: Array2) | EmbeddingsF32(emb32: Array2)

  /** A model once the ONNX backend has loaded it. Its answers come from
      ONNX Runtime and are not modelled: they are whatever these fields say. */
  datatype LoadedModel = LoadedModel(
    outputDType: Result<ModelOutputDType>,
    outputDim: Result<int>,
    predictF16: seq<string> -> Result<Array2>,
    predictF32: seq<string> -> Result<Array2>)
}
