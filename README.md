# letsearch, modelled in Dafny

letsearch is a single-binary tool that indexes a column of a DuckDB table
with an ONNX embedding model and searches the resulting usearch vector
index. This project models the logic the repository itself owns and proves
properties about it. It covers these parts:

- **The model registries.** `ModelManagement.ModelManager` is the current
  one and `LegacyModelManagement.ModelManager` the older one. Each is an id
  counter that starts at 1 plus a map from ids to loaded models. A backend
  load that fails consumes no id. Lookups on unknown ids fail with fixed
  messages, and `predict` dispatches on the model's output dtype.
- **The collection registry.** `CollectionManagement.CollectionManager`
  holds the collections by name, one shared model manager, and a lookup
  from model names to their ids. Each requested model is loaded once and
  then reused.
- **A collection.** `CollectionTypes.Collection` has a config, a database
  connection and one vector index per embedded column. The plan that
  `embed_column` runs is `4096 / batch_size` batches, and batch `b` reads
  rows from `b * batch_size` on. A batch's keys are the contiguous range
  that starts at its offset. F16 embeddings add nothing to the index.
- **The vector index wrappers.** `VectorIndexes.VectorIndex` is the current
  wrapper and `LegacyVectorIndexes.VectorIndex` the older one. The index in
  each is absent or present. The current `add` grows the capacity before
  adding and the older one never does. Both pair key `i` with row `i` of a
  flat buffer. `search` pairs keys with `1 - distance`.
- **Model resolution on the Hugging Face Hub** (`HfOps`):
  - parsing `hf://user/repo` and building `home/models/user/repo` from it;
  - the cached, chunk-counting `download_file`;
  - the checks on `metadata.json` and the choice of the first matching
    variant;
  - the required files, downloaded in order;
  - the model listing, sorted by downloads.
- **The collection config.** `CollectionUtils` holds the serde defaults,
  the JSON round trip, and the home directory.

Foreign behaviour enters the model as values and is never re-implemented:

- A loaded ONNX model is a `ModelUtils.LoadedModel`. It holds its dtype, its
  dimension and its two prediction functions.
- A DuckDB connection is a `CollectionTypes.Database`. It holds a query
  function and a statement function.
- What `Collection::from` finds on disk is a `CollectionTypes.OnDisk`.
- usearch is `Usearch.Index`, a key/vector multiset with a capacity.
- The network is a function from a `HfOps.Request` to the `HfOps.Response`
  it gets back.
- Reading `metadata.json` as UTF-8 JSON is a function from bytes to `Json`.
- The directory tree that downloads write into is the class
  `HfOps.FileSystem`.
- The environment variable `LETSEARCH_HOME` is a parameter.

Failures use `Wrappers.Result`. The `?` operator gives `Err(msg)`.
`unwrap()`, `assert!`, `assert_eq!`, `unreachable!` and `unimplemented!`
give `Panic(reason)`, whose text is the standard library's message
prefix, without the formatted error value that Rust appends. A panic that
happens inside a foreign call is passed on with its own reason.

Three details are modelled as the source has them:

- `Collection::from` registers the index it loads under the collection's
  name, not under the name of the column it was loaded for.
- `Collection::from` returns the literal message
  `"Collection {name} does not exist"`, which is not formatted.
- The config struct in `collection_utils.rs` has no `model_name`, but
  `collection_type.rs:285` and `collection_manager.rs:153` read one. The
  modelled config has a `modelName` with serde's default for a `String`,
  which is `""`.

## Model

| member | source | states |
|---|---|---|
| ModelManagement.ModelManager.constructor | src/model/model_manager.rs:16-21 | a new manager has no models and its counter at 1 |
| ModelManagement.ModelManager.LoadModel | src/model/model_manager.rs:23-45 | a successful load returns the old counter, which was not yet in use, bumps the counter by one and adds exactly that id to the map; a failed load passes its error on and changes neither the counter nor the map; every id in use stays below the counter |
| ModelManagement.ModelManager.PredictF16 | src/model/model_manager.rs:47-60 | an unknown id fails with "Model not found"; a known one gives the model's F16 prediction |
| ModelManagement.ModelManager.PredictF32 | src/model/model_manager.rs:62-75 | an unknown id fails with "Model not found"; a known one gives the model's F32 prediction |
| ModelManagement.ModelManager.OutputDType | src/model/model_manager.rs:92-101 | an unknown id fails with "Model not loaded"; a known one gives the model's answer |
| ModelManagement.ModelManager.OutputDim | src/model/model_manager.rs:103-112 | an unknown id fails with "Model not loaded"; a known one gives the model's answer |
| ModelManagement.ModelManager.Predict | src/model/model_manager.rs:77-90 | the dtype lookup's error is passed on; an F16 model yields F16 embeddings and an F32 model F32 ones; a failed prediction is unwrapped (error to the unwrap panic, backend panic passed on); Int8 panics as unimplemented; the manager is unchanged |
| ModelManagement.PredictUnknownId | src/model/model_manager.rs:77-78 | predicting with an id that is not loaded fails with "Model not loaded" |
| ModelManagement.PredictFollowsDType | src/model/model_manager.rs:77-90 | a successful prediction comes from a loaded model, carries the array of the backend call its dtype selects, and never comes from an Int8 model |
| ModelManagement.PredictFailureIsUnwrapped | src/model/model_manager.rs:80-85 | a failed backend prediction is unwrapped: a backend error becomes the unwrap panic and a backend panic is passed on unchanged |
| ModelManagement.IdsOfAFreshManager | src/model/model_manager.rs:16-45 | a fresh manager hands out 1, a failed load in between is an error that consumes no id, and the next success gets 2 |
| LegacyModelManagement.ModelManager.constructor | src/model/manager.rs:16-21 | a new manager has no models and its counter at 1 |
| LegacyModelManagement.ModelManager.LoadModel | src/model/manager.rs:23-45 | a successful load returns the old counter, bumps it by one and puts the returned id in the map; a failed load passes its error on and changes nothing |
| LegacyModelManagement.ModelManager.Predict | src/model/manager.rs:47-59 | an unknown id fails with "Model not found"; a known one gives the model's answer or its error message |
| LegacyModelManagement.ConsecutiveIds | src/model/manager.rs:37-42 | two successful loads in a row return consecutive ids, both present in the map |
| CollectionUtils.HomeDir | src/collection/collection_utils.rs:4-10 | the home directory is `LETSEARCH_HOME` when it is set and ".letsearch" otherwise |
| CollectionUtils.Default | src/collection/collection_utils.rs:24-48 | the default config is named "default", indexes ["text"] (so it has an index column), uses "data.db" and serialization version 1 |
| CollectionUtils.RoundTrip | src/collection/collection_utils.rs:12-22 | serializing a config and deserializing the result gives the same config |
| CollectionUtils.EmptyObjectIsDefault | src/collection/collection_utils.rs:14-21 | an empty JSON object deserializes to exactly `default()` |
| CollectionUtils.MissingFieldsTakeDefaults | src/collection/collection_utils.rs:14-21 | each member missing from a config that deserializes takes the value `default()` has for that field |
| CollectionUtils.WrongTypeIsAnError | src/collection/collection_utils.rs:12-22 | a `name` member that is not a string is an error and is not replaced by its default |
| VectorIndexes.Pair | src/collection/vector_index.rs:115-123 | the results are the (key, distance) pairs in match order, as many as the shorter list, each with score 1 - distance |
| VectorIndexes.Grown | src/collection/vector_index.rs:89-92 | the grown capacity, floor(required * 1.1), is at least the required capacity |
| VectorIndexes.AddRows | src/collection/vector_index.rs:94-100 | with room for every key, the per-key loop adds key `i` with row `i` for every `i` and changes neither dimensions nor capacity |
| VectorIndexes.VectorIndex.constructor | src/collection/vector_index.rs:26-40 | a new wrapper keeps its directory and has no index |
| VectorIndexes.VectorIndex.From | src/collection/vector_index.rs:53-68 | loading succeeds exactly when usearch's load does, and the new wrapper holds the loaded index |
| VectorIndexes.VectorIndex.WithOptions | src/collection/vector_index.rs:42-51 | the wrapper then holds a new, empty index of the given dimensions with the reserved capacity |
| VectorIndexes.VectorIndex.Save | src/collection/vector_index.rs:70-76 | an absent index panics; a present one is saved to `path/index.bin` |
| VectorIndexes.VectorIndex.Add | src/collection/vector_index.rs:78-103 | an absent index panics; otherwise the capacity grows when the keys would not fit, every key is added with its row, the dimensions are kept, and the entries never exceed the capacity; when the keys fit, the capacity is unchanged |
| VectorIndexes.VectorIndex.Search | src/collection/vector_index.rs:105-126 | an absent index panics, a failed search is passed on, and otherwise result `i` is match `i`'s key with score 1 - distance |
| Usearch.RowEntriesHold | src/collection/vector_index.rs:95-100 | every key `keys[i]` below the count is in the added entries with the slice [i*dim, (i+1)*dim) of the buffer |
| Usearch.RowEntriesShape | src/collection/vector_index.rs:95-100 | the per-key loop adds exactly one entry per key, and only under the given keys |
| LegacyVectorIndexes.VectorIndex.constructor | src/vector_index.rs:22-36 | a new wrapper keeps its path and has no index |
| LegacyVectorIndexes.VectorIndex.WithOptions | src/vector_index.rs:38-47 | the wrapper then holds a new, empty index with the reserved capacity |
| LegacyVectorIndexes.VectorIndex.Save | src/vector_index.rs:49-56 | an absent index panics; a present one is saved to `path/index.bin` |
| LegacyVectorIndexes.VectorIndex.Add | src/vector_index.rs:58-75 | an absent index panics; the capacity never grows, so the call succeeds exactly when the keys fit, and then every key is added with its row; an add that does not fit panics |
| CollectionTypes.OpenCollection | src/collection/collection_type.rs:55-77 | a missing directory and a missing config.json fail with their messages, in that order; an opened collection has the config that config.json deserializes to, with at least one index column, and the database and index that were loaded |
| CollectionTypes.KeyRange | src/collection/collection_type.rs:180 | the keys of a batch are as many as its vectors |
| CollectionTypes.BatchEntries | src/collection/collection_type.rs:153-195 | a batch fails only by panicking |
| CollectionTypes.BatchOffsetIsProduct | src/collection/collection_type.rs:255-262 | batch `b` starts at row `b * batch_size` |
| CollectionTypes.PlanStopsAtFailure | src/collection/collection_type.rs:239-264 | once a batch fails, no later batch runs and the plan fails with that failure |
| CollectionTypes.PlanPanics | src/collection/collection_type.rs:255-263 | the batch loop fails only by panicking |
| CollectionTypes.BatchKeysContiguous | src/collection/collection_type.rs:179-187 | the keys of a successful batch are exactly offset .. offset + its number of vectors |
| CollectionTypes.RowKeysContiguous | src/collection/collection_type.rs:179-187 | the rows of an F32 batch are as many entries as vectors, keyed exactly by offset .. offset + num_vectors |
| CollectionTypes.BatchOffsetMonotone | src/collection/collection_type.rs:255-262 | later batches start at later rows |
| CollectionTypes.BatchesDisjoint | src/collection/collection_type.rs:179-187 | two different batches of at most batch_size vectors never share a key |
| CollectionTypes.PlanKeysBelow | src/collection/collection_type.rs:204-263 | with at most batch_size vectors a batch, every key of the first `n` batches is below `n * batch_size`, so rows from (4096 / batch_size) * batch_size on are never embedded |
| CollectionTypes.F16AddsNothing | src/collection/collection_type.rs:176-177 | an F16 model's embeddings add nothing to the index |
| CollectionTypes.KeysOfUnion | src/collection/collection_type.rs:178-187 | the keys of two batches together are the keys of each batch |
| CollectionTypes.BatchesOfRuns | src/collection/collection_type.rs:255-263 | the batch function of the plan is the batch of `embed_column_with_offset` at each offset |
| CollectionTypes.Collection.Init | src/collection/collection_type.rs:48-52 | a collection starts with its config, its connection and no vector indexes |
| CollectionTypes.Collection.New | src/collection/collection_type.rs:26-53 | creation succeeds exactly when preparing the directory, database and config file does; the new collection has the config and no vector index |
| CollectionTypes.Collection.From | src/collection/collection_type.rs:55-84 | loading succeeds exactly when the on-disk checks do; the loaded collection has the stored config and exactly one index, loaded from `index/<first index column>` and registered under the collection's name |
| CollectionTypes.Collection.ImportJsonl | src/collection/collection_type.rs:90-108 | the import runs `CREATE TABLE <name> AS SELECT * FROM read_json_auto('<path>');` and gives its outcome |
| CollectionTypes.Collection.GetSingleColumn | src/collection/collection_type.rs:110-125 | a batch size of 0 fails the assertion; otherwise the result is the query `SELECT <col> FROM <name> LIMIT <b> OFFSET <o>;` |
| CollectionTypes.Collection.RequestedModels | src/collection/collection_type.rs:284-286 | the requested models are exactly the config's model name |
| CollectionTypes.Collection.EmbedColumnWithOffset | src/collection/collection_type.rs:153-195 | a batch adds to the column's index exactly the batch's entries or fails as the batch does, keeping the index's path and dimensions |
| CollectionTypes.Collection.NextBatch | src/collection/collection_type.rs:255-263 | running batch `b` on top of the first `b` batches leaves the entries of the first `b + 1` |
| CollectionTypes.Collection.RunBatches | src/collection/collection_type.rs:239-264 | the loop adds the entries of all `n` batches, or stops at the first failure and returns it |
| CollectionTypes.Collection.RegisterIndex | src/collection/collection_type.rs:207-235 | a column without an index gets a new, empty index of the model's output dimension at `collections/<name>/index/<column>`, with capacity 20000; an unknown model panics and registers nothing |
| CollectionTypes.Collection.EmbedRegistered | src/collection/collection_type.rs:237-276 | `4096 / batch_size` batches are added to the column's index, or the first failing one panics |
| CollectionTypes.Collection.EmbedColumn | src/collection/collection_type.rs:197-282 | a batch size of 0 panics by division by zero; an index is created only when the column has none and an existing one is reused; on success the column's index holds its old entries plus the entries of `4096 / batch_size` batches; every failure is a panic; the other columns keep their index objects, entries and paths, and an existing index keeps its path and dimensions |
| CollectionManagement.CollectionManager.constructor | src/collection/collection_manager.rs:17-23 | a new registry has no collections, an empty model lookup and a fresh model manager |
| CollectionManagement.CollectionManager.LoadIfAbsent | src/collection/collection_manager.rs:31-40 | a name already looked up keeps its id and nothing loads; otherwise the model loads under the manager's next id, which is recorded under the name, or the failed load panics and changes nothing |
| CollectionManagement.CollectionManager.EnsureModelsLoaded | src/collection/collection_manager.rs:28-41 | the loop succeeds exactly when every name not yet looked up loads; then every requested name is looked up, old names keep their ids, new names map to their loaded models, and when all names were known nothing changes |
| CollectionManagement.CollectionManager.StoreWithModels | src/collection/collection_manager.rs:28-46 | after the model loop, the collection is stored under its name, replacing any previous one, and its model is looked up; a failed load stores nothing |
| CollectionManagement.CollectionManager.CreateCollection | src/collection/collection_manager.rs:49-76 | a failing `Collection::new` is passed on with neither map changed; otherwise the new collection is stored under its config's name and its model is loaded unless already looked up |
| CollectionManagement.CollectionManager.LoadCollection | src/collection/collection_manager.rs:25-47 | a failing `Collection::from` panics with neither map changed; otherwise the loaded collection is stored under the name and its model is loaded unless already looked up |
| CollectionManagement.CollectionManager.GetCollections | src/collection/collection_manager.rs:78-83 | the names are exactly the stored names, each once |
| CollectionManagement.CollectionManager.GetCollectionConfigs | src/collection/collection_manager.rs:85-94 | there is one config per stored collection, each the config of a distinct stored name |
| CollectionManagement.CollectionManager.GetCollectionConfig | src/collection/collection_manager.rs:96-110 | an unknown name fails with "Collection '<name>' does not exist"; a known one gives its config |
| CollectionManagement.CollectionManager.ImportJsonl | src/collection/collection_manager.rs:112-135 | an unknown name fails with "Collection '<name>' does not exist"; a known one gives its collection's import |
| CollectionManagement.CollectionManager.EmbedColumn | src/collection/collection_manager.rs:137-172 | an unknown collection fails first, then a model name not looked up fails with "Model '<model>' is not loaded"; otherwise the result is that of `Collection::embed_column` with the looked-up id: a batch size of 0 panics, success exactly when an index exists or can be made and every batch embeds, any other failure is a panic, and the new entries are the plan's; the collection's config and connection are unchanged, its other columns keep their index objects, entries and paths, an existing index keeps its path and dimensions, and a new column gets one fresh index at `home/collections/<name>/index/<column>` with the model's output dimension |
| HfOps.ModelInfoUrlSuffix | src/hf_ops.rs:62-67 | the model-info URL is `https://huggingface.co/api/models/<repo>`, with `?blobs=true` appended when file metadata is asked for |
| HfOps.AuthHeader | src/hf_ops.rs:122-128 | no token sends no header; a token is sent as "BEARER <token>"; a token with a control character panics in `HeaderValue::from_str(..).unwrap()` |
| HfOps.GetModelInfo | src/hf_ops.rs:62-78 | a send error is passed on, a failure status is "Failed to fetch model info: <status>", and success exactly when the status succeeds and the body decodes |
| HfOps.GetModels | src/hf_ops.rs:80-99 | the listing request carries the token header; a send error is passed on, a failure status is "Failed to list models: <status>", and success exactly when the status succeeds and the body decodes |
| HfOps.ContentLengthOfNumber | src/hf_ops.rs:139-143 | a Content-Length holding a 64-bit number gives that number as the total size |
| HfOps.ContentLengthDefaultsToZero | src/hf_ops.rs:139-143 | a missing Content-Length, or one without digits, gives total size 0 |
| HfOps.ReceivedAppend | src/hf_ops.rs:154-165 | a delivered chunk appends its bytes to what was written before |
| HfOps.ReceivedStops | src/hf_ops.rs:154-165 | a failed or empty chunk ends the download and nothing after it is written |
| HfOps.ReceivedFrom | src/hf_ops.rs:154-165 | from position `i` on, the written bytes are nothing when the stream stops there, and otherwise the chunk at `i` followed by the rest |
| HfOps.WriteStream | src/hf_ops.rs:154-165 | the file holds exactly the bytes received up to the first failed or empty chunk, and `downloaded` is their number; no other file changes |
| HfOps.FileSystem.constructor | src/hf_ops.rs:107-112 | the file system starts with the given directories and files |
| HfOps.FileSystem.CreateDirAll | src/hf_ops.rs:107-109 | the directory then exists |
| HfOps.FileSystem.Create | src/hf_ops.rs:144 | the file then exists and is empty |
| HfOps.FileSystem.Append | src/hf_ops.rs:162 | the bytes are appended to the file and nothing else changes |
| HfOps.FileSystem.Read | src/hf_ops.rs:192 | a file gives its bytes; a directory or a missing path gives the OS error |
| HfOps.FileResponse | src/hf_ops.rs:116-137 | a response `download_file` goes on with always has a success status |
| HfOps.DownloadFile | src/hf_ops.rs:101-169 | the destination directory is created if missing; an existing `dir/file` is returned without a request; otherwise a token panic, a send error and a failure status ("Failed to download file: <status>") are the failures, and on success the file holds the received bytes, the total size is the Content-Length (0 by default) and `downloaded` counts those bytes; no existing file changes and a failure writes no file, leaves the file absent and is the failure of the request |
| HfOps.RemoveAllFree | src/hf_ops.rs:177 | removing "hf://" from a path that does not contain it changes nothing |
| HfOps.SplitOnce | src/hf_ops.rs:178 | `split_once('/')` gives the text before and after the first '/', and nothing exactly when there is no '/' |
| HfOps.SplitOnceUnique | src/hf_ops.rs:178 | a string split at its first '/' is split into those two parts |
| HfOps.ParseRepoPath | src/hf_ops.rs:177-180 | "hf://" is removed and the rest split at its first '/'; it fails, with the "not a proper HuggingFace path" message, exactly when there is no '/' |
| HfOps.ParsePlainPath | src/hf_ops.rs:177-181 | `hf://user/repo` parses into repository id "user/repo", user "user" and repository "repo" |
| HfOps.DestinationOfPlainNames | src/hf_ops.rs:176-181 | the destination is `home/models/user/repo` |
| HfOps.FindVariant | src/hf_ops.rs:206-209 | the chosen entry is the first whose "variant" equals the request, and none is chosen exactly when no entry matches |
| HfOps.SelectVariant | src/hf_ops.rs:195-223 | the checks run in order: a non-integer `letsearch_version` is an error, any version other than 1 fails the assertion, a non-array `variants` is an error, a missing variant is "Variant not found in config", and otherwise the first matching entry's path is chosen (a missing path is unreachable) |
| HfOps.FirstVariantWins | src/hf_ops.rs:206-212 | of several entries for the same variant, the first one's path is chosen |
| HfOps.DownloadRequired | src/hf_ops.rs:225-235 | the names are handled in order and the loop ends at the first failure: every name before it is a string whose file is present; a non-string name panics with the `Option::unwrap` message; a string name fails with the failure of its request and its file stays absent; success exactly when every name was handled |
| HfOps.FetchMetadata | src/hf_ops.rs:183-193 | the result is what the downloaded metadata.json parses to, and a failure when it could not be downloaded |
| HfOps.DownloadModel | src/hf_ops.rs:171-251 | a bad path fails before anything is written; a missing or undecodable metadata file fails; the metadata decides the variant and a selection failure is passed on; once the variant is chosen the call succeeds exactly when the variant's file and every required file are present under `home/models/user/repo`, and then splits the variant's file into its directory and file name; a missing variant file is the failure of its request, and otherwise the first missing required file decides the failure (an `unwrap` panic for a non-string name, its request's failure for a string); downloads never remove or change existing files |
| HfOps.StopIsFirstMissing | src/hf_ops.rs:225-236 | the required file the loop stopped at is the first one missing, so the loop's failure is the failure of every first missing file and not all required files are present |
| HfOps.DownloadedModelSplits | src/hf_ops.rs:237-250 | for a plain file name the result is the destination directory and the file name |
| HfOps.UncountedLast | src/hf_ops.rs:276 | in the sorted listing every model with a download count comes before every model without one |
| HfOps.SortByDownloads | src/hf_ops.rs:276 | the models end up ordered by downloads, highest first with no count last, and are a permutation of the input |
| HfOps.Listing | src/hf_ops.rs:277-279 | one "hf://<modelId>" line per model, in order |
| HfOps.ListModels | src/hf_ops.rs:253-285 | a failed listing is passed on and prints nothing; an empty one prints the two "no models" lines; otherwise the printed models are a permutation of the listed ones, ordered by downloads, between the banner and the token hint |

## Left out

- ONNX Runtime, the tokenizers and the f16/f32 tensors of
  `src/model/backends/onnx/bert_onnx.rs`: a loaded model's answers are
  inputs (`ModelUtils.LoadedModel`), and floating-point values are only
  copied, so `real` stands in for them.
- DuckDB: queries and statements are functions whose answers are inputs.
  So is what `get_single_column` does with the Arrow batch after the query:
  the `assert_eq!(result.len(), 1)`, the downcast to strings and the
  `unwrap` of null values.
- usearch internals: graph construction, metrics and search quality. The
  index is a multiset of entries with a capacity. `add` is taken to fail
  exactly when the index is full, and `reserve` and `new_index` are taken to
  succeed. Saving is the path it saves to.
- Filesystem effects outside the Hub downloads: `remove_dir_all`,
  `create_dir_all` and `File::create` in `Collection::new` and
  `VectorIndex::new` are not modelled. `Collection::new`'s directory,
  database and config.json steps become one outcome, `prepared`.
- In the Hub downloads, `create_dir_all`, `File::create` and `write_all`
  are taken to succeed. Ancestors of a created directory are not tracked.
- Path handling is simplified to '/' separators: `Paths.Join`, `Parent` and
  `FileName`. The `None` cases of `parent()` and `file_name()` (a root, or
  a name ending in "..") and `to_str()` on non-UTF-8 paths are not
  modelled. `to_string_lossy` is the identity.
- The network: building the reqwest client is taken to succeed, and what a
  request gets back is an input. Decoding Hub responses with serde is an
  input field of the response. Reading `metadata.json` as UTF-8 JSON text
  is an input function.
- Deserialize errors keep only the fact of the error. The message is always
  "invalid type", not serde's text with its line and column.
- Integer widths: ids are `nat`, not `u32`; keys, batch sizes and the
  `downloaded` counter are not bounded to `u64`; `offset + num_vectors`
  cannot overflow. `output_dim as usize` is modelled as a reinterpretation
  modulo 2^64.
- ModelManagement.ModelManager.LoadModel: does not model the `u32`
  overflow of `next_id` after 2^32 - 1 loads, because ids are unbounded.
- LegacyModelManagement.ModelManager.LoadModel: does not model the `u32`
  overflow of `next_id`, for the same reason.
- Paths are strings joined with `/` (`Paths.Join`). `Path::join` treats
  `dir/` and `dir` as the same path, so a `required_files` entry `""` is
  the existing destination directory in the source; in the model it is
  the path `dest/`, which is not `dest`, and it is fetched. Paths that
  differ only by trailing or repeated separators are not identified.
- Panic messages of `Result::unwrap()` keep only the standard library's
  prefix "called `Result::unwrap()` on an `Err` value", not the `: <err>`
  Debug text of the error that Rust appends after it.
- HfOps.SortByDownloads: does not state that the sort is stable (models with
  equal downloads keep their order), only the order and the permutation.
- HfOps.ListModels: does not state stability either, for the same reason.
- CollectionTypes.Collection.EmbedColumnWithOffset: requires the column to
  have an index registered. Its only caller, `embed_column`, guarantees
  that, so the `unwrap` of the missing index is never reached.
- VectorIndexes.VectorIndex.Add and LegacyVectorIndexes.VectorIndex.Add:
  require the buffer to hold `count * dim` scalars. The source reads it
  through a raw pointer, and a shorter buffer is undefined behaviour that
  is not modelled.
- VectorIndexes.VectorIndex.Search: requires the query to hold `dim`
  scalars, for the same reason.
- Progress bars, the spinner, logging, the ETA computation and the printed
  batch progress of `embed_column`.
- Concurrency: the tokio `RwLock`s and `spawn_blocking` are treated as
  sequential access. The `par_iter` of `add` is a sequential loop, and its
  order cannot be observed because the entries are a multiset.
- `VectorIndex.search`'s score arithmetic is exact here, not `f32`.
- `src/main.rs`, `src/serve.rs`, `benches/benchmarks.rs` and the Python
  probes `test.py` and `scripts/test.py` are not part of this model. They
  are the CLI, the HTTP server and benchmark and smoke-test glue. In
  `test.py` the loop after line 18 is dead code, because the script exits
  before it.
- `src/collection.rs`, the older DuckDB wrapper, is not part of this model.
- `src/model/model_utils.rs` and `src/model/traits/*` hold only types. Their
  enums are the datatypes of `ModelUtils` and are not modelled separately.
- `get_model_info`'s `files_metadata` query is modelled. The fields of
  `ModelInfo` are carried as they decode and are not checked.
