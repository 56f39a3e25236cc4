/** A collection (src/collection/collection_type.rs): its config, its
    database connection and its vector indexes, one per embedded column,
    and the plan by which a column is embedded in batches. */
module CollectionTypes {
  import opened Wrappers
  import opened Json
  import opened Paths
  import opened Numbers
  import opened CollectionUtils
  import opened ModelUtils
  import opened ModelManagement
  import opened Usearch
  import opened VectorIndexes

  /** A DuckDB connection as an opaque service: a query gives the values of
      its first column; a statement batch gives an outcome. */
  datatype Database = Database(
    query: string -> Result<seq<string>>,
    executeBatch: string -> Result<()>)

  /** What a collection directory holds, as `Collection::from` finds it. */
  datatype OnDisk = OnDisk(
    dirExists: bool,
    configExists: bool,
    configJson: Result<Json>,       // reading config.json as JSON
    connection: Result<Database>,   // opening the database file
    index: Result<Index>)           // loading the first index column's index.bin

  const COLLECTIONS_DIR := "collections"
  const INDEX_DIR := "index"
  /** The message is not formatted: it holds the text `{name}` itself. */
  const MISSING_COLLECTION_DIR := "Collection {name} does not exist"
  const MISSING_CONFIG := "config file does not exist"
  const NO_INDEX_COLUMN := "index out of bounds: the len is 0 but the index is 0"
  const BATCH_SIZE_ASSERT := "assertion failed: batch_size >= 1"
  const DIVIDE_BY_ZERO := "attempt to divide by zero"
  /** The number of rows `embed_column` covers, whatever the table holds. */
  const EMBED_ROWS := 4096
  const NEW_INDEX_CAPACITY := 20000
  const USIZE_LIMIT := 0x1_0000_0000_0000_0000

  function CollectionDir(home: string, name: string): string {
    Join(Join(home, COLLECTIONS_DIR), name)
  }

  function IndexPath(home: string, name: string, column: string): string {
    Join(Join(CollectionDir(home, name), INDEX_DIR), column)
  }

  /** The query `get_single_column` prepares. */
  function SelectQuery(column: string, table: string, limit: nat, offset: nat): string {
    "SELECT " + column + " FROM " + table + " LIMIT " + NatToString(limit) + " OFFSET " + NatToString(offset) + ";"
  }

  /** The statement `import_jsonl` runs. */
  function ImportStatement(table: string, jsonlPath: string): string {
    "CREATE TABLE " + table + " AS SELECT * FROM read_json_auto('" + jsonlPath + "');"
  }

  /** `d as usize` for an `i64`: two's complement reinterpretation. */
  function AsUsize(d: int): nat {
    d % USIZE_LIMIT
  }

  /** What `Collection::from` reads and checks, in the order it does. */
  datatype Opened = Opened(config: CollectionConfig, conn: Database, index: Index)

  function OpenCollection(disk: OnDisk): (r: Result<Opened>)
    ensures !disk.dirExists ==> r == Err(MISSING_COLLECTION_DIR)
    ensures disk.dirExists && !disk.configExists ==> r == Err(MISSING_CONFIG)
    ensures r.Ok? ==> |r.value.config.indexColumns| > 0
    ensures r.Ok? ==> disk.configJson.Ok? && Deserialize(disk.configJson.value) == Ok(r.value.config)
    ensures r.Ok? ==> disk.connection == Ok(r.value.conn) && disk.index == Ok(r.value.index)
  {
    if !disk.dirExists then Err(MISSING_COLLECTION_DIR)
    else if !disk.configExists then Err(MISSING_CONFIG)
    else if !disk.configJson.Ok? then Propagate(disk.configJson)
    else
      var config := Deserialize(disk.configJson.value);
      if !config.Ok? then Propagate(config)
      else if !disk.connection.Ok? then Propagate(disk.connection)
      else if |config.value.indexColumns| == 0 then Panic(NO_INDEX_COLUMN)
      else if !disk.index.Ok? then Propagate(disk.index)
      else Ok(Opened(config.value, disk.connection.value, disk.index.value))
  }

  /** The keys `offset..offset + n`. */
  function KeyRange(offset: nat, n: nat): (keys: seq<nat>)
    ensures |keys| == n
  {
    seq(n, i => offset + i)
  }

  /** Everything the batches of one `embed_column` depend on. */
  datatype EmbedJob = EmbedJob(
    conn: Database,
    models: map<nat, LoadedModel>,
    modelId: nat,
    table: string,
    column: string,
    batchSize: nat)

  /** What `embed_column_with_offset` adds to the column's index: nothing
      for F16 embeddings, the keys from `offset` on with their rows for F32
      ones. A failed read or prediction is unwrapped. */
  function BatchEntries(job: EmbedJob, offset: nat): (r: Result<multiset<Entry>>)
    ensures !r.Ok? ==> r.Panic?
  {
    if job.batchSize == 0 then Panic(BATCH_SIZE_ASSERT)
    else
      var texts := Unwrap(job.conn.query(SelectQuery(job.column, job.table, job.batchSize, offset)));
      if !texts.Ok? then Propagate(texts)
      else
        var embeddings := Unwrap(PredictOf(job.models, job.modelId, texts.value));
        if !embeddings.Ok? then Propagate(embeddings)
        else match embeddings.value
          case EmbeddingsF16(_) => Ok(multiset{})
          case EmbeddingsF32(m) => Ok(RowEntries(KeyRange(offset, m.rows), m.data, m.dim, m.rows))
  }

  /** The first row of batch `b`: `b * batchSize`, counted up. */
  function BatchOffset(batchSize: nat, b: nat): nat {
    if b == 0 then 0 else BatchOffset(batchSize, b - 1) + batchSize
  }

  lemma {:induction false} BatchOffsetIsProduct(batchSize: nat, b: nat)
    ensures BatchOffset(batchSize, b) == b * batchSize
  {
    if b > 0 {
      BatchOffsetIsProduct(batchSize, b - 1);
      assert b * batchSize == (b - 1) * batchSize + batchSize;
    }
  }

  /** The entries the first `k` batches add, batch `b` starting at row
      `b * batchSize` and adding what `batch` gives for that row, or the
      first batch's failure. */
  function PlanOf(batch: nat -> Result<multiset<Entry>>, batchSize: nat, k: nat): Result<multiset<Entry>> {
    if k == 0 then Ok(multiset{})
    else
      var done := PlanOf(batch, batchSize, k - 1);
      if !done.Ok? then done
      else
        var more := batch(BatchOffset(batchSize, k - 1));
        if !more.Ok? then more else Ok(done.value + more.value)
  }

  /** The batches of one `embed_column` run, by first row. */
  function BatchesOf(job: EmbedJob): nat -> Result<multiset<Entry>> {
    (offset: nat) => BatchEntries(job, offset)
  }

  /** `batch` gives, for every first row, what that batch adds. */
  ghost predicate RunsBatchesOf(job: EmbedJob, batch: nat -> Result<multiset<Entry>>) {
    forall offset: nat {:trigger BatchEntries(job, offset)} :: batch(offset) == BatchEntries(job, offset)
  }

  /** The entries the first `k` batches of `job` add. */
  function PlanEntries(job: EmbedJob, k: nat): Result<multiset<Entry>> {
    PlanOf(BatchesOf(job), job.batchSize, k)
  }

  lemma BatchesOfRuns(job: EmbedJob)
    ensures RunsBatchesOf(job, BatchesOf(job))
  {
  }

  /** Once a batch fails, the whole plan fails with that batch's failure. */
  lemma {:induction false} PlanStopsAtFailure(batch: nat -> Result<multiset<Entry>>, batchSize: nat, k: nat, n: nat)
    requires k <= n && !PlanOf(batch, batchSize, k).Ok?
    ensures PlanOf(batch, batchSize, n) == PlanOf(batch, batchSize, k)
  {
    if k < n {
      PlanStopsAtFailure(batch, batchSize, k, n - 1);
    }
  }

  /** A plan of batches that only ever panic fails only by panicking. */
  lemma {:induction false} PlanPanics(job: EmbedJob, k: nat)
    ensures !PlanEntries(job, k).Ok? ==> PlanEntries(job, k).Panic?
  {
    if k > 0 {
      PlanPanics(job, k - 1);
    }
  }

  /** The keys a set of entries holds. */
  function KeysOf(es: multiset<Entry>): set<nat> {
    set e | e in es :: e.key
  }

  lemma KeysOfUnion(a: multiset<Entry>, b: multiset<Entry>)
    ensures KeysOf(a + b) == KeysOf(a) + KeysOf(b)
  {
    forall k | k in KeysOf(a) + KeysOf(b) ensures k in KeysOf(a + b) {
      if k in KeysOf(a) {
        var e :| e in a && e.key == k;
        assert e in a + b;
      } else {
        var e :| e in b && e.key == k;
        assert e in a + b;
      }
    }
  }

  /** A batch that succeeds adds one entry per key `offset`,
      `offset + 1`, ... in turn: its keys are exactly the range from
      `offset` as long as the batch. */
  lemma BatchKeysContiguous(job: EmbedJob, offset: nat)
    requires BatchEntries(job, offset).Ok?
    ensures var es := BatchEntries(job, offset).value;
      forall k :: k in KeysOf(es) <==> offset <= k < offset + |es|
  {
    var texts := Unwrap(job.conn.query(SelectQuery(job.column, job.table, job.batchSize, offset)));
    var embeddings := Unwrap(PredictOf(job.models, job.modelId, texts.value));
    if embeddings.value.EmbeddingsF32? {
      var m := embeddings.value.emb32;
      assert BatchEntries(job, offset).value == RowEntries(KeyRange(offset, m.rows), m.data, m.dim, m.rows);
      RowKeysContiguous(offset, m);
    }
  }

  /** The rows of one F32 batch are keyed by the range from `offset`. */
  lemma RowKeysContiguous(offset: nat, m: Array2)
    ensures var es := RowEntries(KeyRange(offset, m.rows), m.data, m.dim, m.rows);
      |es| == m.rows && forall k :: k in KeysOf(es) <==> offset <= k < offset + m.rows
  {
    var keys := KeyRange(offset, m.rows);
    var es := RowEntries(keys, m.data, m.dim, m.rows);
    RowEntriesShape(keys, m.data, m.dim, m.rows);
    assert keys[..m.rows] == keys;
    forall k: nat | offset <= k < offset + m.rows ensures k in KeysOf(es) {
      RowEntriesHold(keys, m.data, m.dim, m.rows, k - offset);
      assert keys[k - offset] == k;
    }
  }

  lemma {:induction false} BatchOffsetMonotone(batchSize: nat, a: nat, b: nat)
    requires a <= b
    ensures BatchOffset(batchSize, a) <= BatchOffset(batchSize, b)
  {
    if a < b {
      BatchOffsetMonotone(batchSize, a, b - 1);
    }
  }

  /** Batches of at most `batchSize` vectors stay within their window of
      rows, so two different batches never share a key. */
  lemma BatchesDisjoint(job: EmbedJob, a: nat, b: nat)
    requires a < b
    requires BatchEntries(job, BatchOffset(job.batchSize, a)).Ok?
    requires BatchEntries(job, BatchOffset(job.batchSize, b)).Ok?
    requires |BatchEntries(job, BatchOffset(job.batchSize, a)).value| <= job.batchSize
    ensures KeysOf(BatchEntries(job, BatchOffset(job.batchSize, a)).value)
         !! KeysOf(BatchEntries(job, BatchOffset(job.batchSize, b)).value)
  {
    BatchKeysContiguous(job, BatchOffset(job.batchSize, a));
    BatchKeysContiguous(job, BatchOffset(job.batchSize, b));
    BatchOffsetMonotone(job.batchSize, a + 1, b);
  }

  /** With at most `batchSize` vectors a batch, every key the first `n`
      batches add is below `n * batchSize`: rows from there on are never
      embedded. */
  lemma {:induction false} PlanKeysBelow(job: EmbedJob, n: nat)
    requires PlanEntries(job, n).Ok?
    requires forall b :: 0 <= b < n && BatchEntries(job, BatchOffset(job.batchSize, b)).Ok? ==>
      |BatchEntries(job, BatchOffset(job.batchSize, b)).value| <= job.batchSize
    ensures forall k :: k in KeysOf(PlanEntries(job, n).value) ==> k < n * job.batchSize
  {
    BatchOffsetIsProduct(job.batchSize, n);
    if n > 0 {
      PlanKeysBelow(job, n - 1);
      BatchOffsetIsProduct(job.batchSize, n - 1);
      var last := BatchOffset(job.batchSize, n - 1);
      assert BatchesOf(job)(last) == BatchEntries(job, last);
      BatchKeysContiguous(job, last);
      KeysOfUnion(PlanEntries(job, n - 1).value, BatchEntries(job, last).value);
    }
  }

  /** An F16 model's embeddings are predicted and dropped: the plan adds
      nothing to the index. */
  lemma {:induction false} F16AddsNothing(job: EmbedJob, n: nat)
    requires job.modelId in job.models && job.models[job.modelId].outputDType == Ok(F16)
    ensures PlanEntries(job, n).Ok? ==> PlanEntries(job, n).value == multiset{}
  {
    if n > 0 {
      F16AddsNothing(job, n - 1);
      var last := BatchOffset(job.batchSize, n - 1);
      assert BatchesOf(job)(last) == BatchEntries(job, last);
    }
  }

  class Collection {
    var config: CollectionConfig
    var conn: Database
    var vectorIndex: map<string, VectorIndex>

    /** Every registered index has its usearch index, and no two columns
        share an index object. */
    ghost predicate Valid()
      reads this, vectorIndex.Values
    {
      && (forall c :: c in vectorIndex ==> vectorIndex[c].index.Some?)
      && (forall c, d :: c in vectorIndex && d in vectorIndex && c != d ==> vectorIndex[c] != vectorIndex[d])
    }

    /** The entries of the index registered for `column`, if any. */
    ghost function EntriesIn(column: string): multiset<Entry>
      reads this, if column in vectorIndex then {vectorIndex[column]} else {}
    {
      if column in vectorIndex && vectorIndex[column].index.Some? then vectorIndex[column].index.value.entries else multiset{}
    }

    ghost function Job(column: string, batchSize: nat, mm: ModelManager, modelId: nat): EmbedJob
      reads this, mm
    {
      EmbedJob(conn, mm.models, modelId, config.name, column, batchSize)
    }

    constructor Init(config: CollectionConfig, conn: Database)
      ensures this.config == config && this.conn == conn && vectorIndex == map[]
    {
      this.config := config;
      this.conn := conn;
      vectorIndex := map[];
    }

    /** `Collection::new`: `prepared` is the outcome of preparing the
        directory, opening the database and writing config.json. */
    static method New(config: CollectionConfig, overwrite: bool, prepared: Result<Database>) returns (r: Result<Collection>)
      ensures r.Ok? <==> prepared.Ok?
      ensures !prepared.Ok? ==> r == Propagate(prepared)
      ensures r.Ok? ==> fresh(r.value) && r.value.Valid()
      ensures r.Ok? ==> r.value.config == config && r.value.conn == prepared.value && r.value.vectorIndex == map[]
    {
      if !prepared.Ok? {
        return Propagate(prepared);
      }
      var c := new Collection.Init(config, prepared.value);
      r := Ok(c);
    }

    /** `Collection::from`: the checks of `OpenCollection`, then one index,
        loaded for the first index column and registered under the
        collection's name. */
    static method From(name: string, home: string, disk: OnDisk) returns (r: Result<Collection>)
      ensures r.Ok? <==> OpenCollection(disk).Ok?
      ensures !r.Ok? ==> r == Propagate(OpenCollection(disk))
      ensures r.Ok? ==> fresh(r.value) && r.value.Valid()
      ensures r.Ok? ==> var o := OpenCollection(disk).value;
        && r.value.config == o.config && r.value.conn == o.conn
        && r.value.vectorIndex.Keys == {name}
        && fresh(r.value.vectorIndex[name])
        && r.value.vectorIndex[name].index == Some(o.index)
        && r.value.vectorIndex[name].path == IndexPath(home, name, o.config.indexColumns[0])
    {
      var openedDisk := OpenCollection(disk);
      if !openedDisk.Ok? {
        return Propagate(openedDisk);
      }
      var o := openedDisk.value;
      var loaded := VectorIndex.From(IndexPath(home, name, o.config.indexColumns[0]), Ok(o.index));
      var c := new Collection.Init(o.config, o.conn);
      c.vectorIndex := map[name := loaded.value];
      r := Ok(c);
    }

    /** `import_jsonl`: a table named after the collection, created from the
        file. */
    method ImportJsonl(jsonlPath: string) returns (r: Result<()>)
      ensures r == conn.executeBatch(ImportStatement(config.name, jsonlPath))
    {
      r := conn.executeBatch(ImportStatement(config.name, jsonlPath));
    }

    /** `get_single_column`: `batchSize` values of `column` from row `offset`
        of the collection's table. */
    method GetSingleColumn(column: string, batchSize: nat, offset: nat) returns (r: Result<seq<string>>)
      ensures batchSize == 0 ==> r == Panic(BATCH_SIZE_ASSERT)
      ensures batchSize > 0 ==> r == conn.query(SelectQuery(column, config.name, batchSize, offset))
    {
      if batchSize < 1 {
        return Panic(BATCH_SIZE_ASSERT);
      }
      r := conn.query(SelectQuery(column, config.name, batchSize, offset));
    }

    /** `requested_models`: the one model the config names. */
    function RequestedModels(): (r: seq<string>)
      reads this
      ensures |r| == 1 && r[0] == config.modelName
    {
      [config.modelName]
    }

    /** `embed_column_with_offset`: one batch, read from row `offset`,
        predicted, and for F32 embeddings added under the keys from
        `offset` on. */
    method EmbedColumnWithOffset(column: string, batchSize: nat, offset: nat, mm: ModelManager, modelId: nat)
      returns (r: Result<()>)
      requires column in vectorIndex && vectorIndex[column].index.Some?
      modifies vectorIndex[column]
      ensures vectorIndex[column].index.Some?
      ensures vectorIndex[column].path == old(vectorIndex[column].path)
      ensures vectorIndex[column].index.value.dimensions == old(vectorIndex[column].index.value.dimensions)
      ensures var b := BatchEntries(Job(column, batchSize, mm, modelId), offset);
        && (b.Ok? ==> r == Ok(()) && vectorIndex[column].index.value.entries == old(vectorIndex[column].index.value.entries) + b.value)
        && (!b.Ok? ==> r == Propagate(b))
    {
      var texts := GetSingleColumn(column, batchSize, offset);
      texts := Unwrap(texts);
      if !texts.Ok? {
        return Propagate(texts);
      }
      var embeddings := mm.Predict(modelId, texts.value);
      embeddings := Unwrap(embeddings);
      if !embeddings.Ok? {
        return Propagate(embeddings);
      }
      match embeddings.value
      case EmbeddingsF16(_) =>
        r := Ok(());
      case EmbeddingsF32(m) =>
        var ids := KeyRange(offset, m.rows);
        var index := vectorIndex[column];
        var added := index.Add(ids, m.data, m.dim);
        r := Ok(());
    }

    /** Batch `b` of the plan, run on top of the batches before it. */
    method NextBatch(column: string, batchSize: nat, b: nat, offset: nat, mm: ModelManager, modelId: nat,
                     ghost batch: nat -> Result<multiset<Entry>>, ghost base: multiset<Entry>)
      returns (r: Result<()>)
      requires RunsBatchesOf(Job(column, batchSize, mm, modelId), batch)
      requires column in vectorIndex && vectorIndex[column].index.Some?
      requires offset == BatchOffset(batchSize, b)
      requires PlanOf(batch, batchSize, b).Ok?
      requires vectorIndex[column].index.value.entries == base + PlanOf(batch, batchSize, b).value
      modifies vectorIndex[column]
      ensures vectorIndex[column].index.Some?
      ensures vectorIndex[column].path == old(vectorIndex[column].path)
      ensures vectorIndex[column].index.value.dimensions == old(vectorIndex[column].index.value.dimensions)
      ensures var p := PlanOf(batch, batchSize, b + 1);
        && (p.Ok? ==> r == Ok(()) && vectorIndex[column].index.value.entries == base + p.value)
        && (!p.Ok? ==> r == Propagate(p))
    {
      ghost var job := Job(column, batchSize, mm, modelId);
      r := EmbedColumnWithOffset(column, batchSize, offset, mm, modelId);
      assert Job(column, batchSize, mm, modelId) == job;
      assert batch(offset) == BatchEntries(job, offset);
    }

    /** The batch loop of `embed_column`: batch `b` starts at row
        `b * batchSize`; the first failing batch ends it. */
    method RunBatches(column: string, batchSize: nat, numBatches: nat, mm: ModelManager, modelId: nat,
                      ghost batch: nat -> Result<multiset<Entry>>)
      returns (r: Result<()>)
      requires RunsBatchesOf(Job(column, batchSize, mm, modelId), batch)
      requires column in vectorIndex && vectorIndex[column].index.Some?
      modifies vectorIndex[column]
      ensures vectorIndex[column].index.Some?
      ensures vectorIndex[column].path == old(vectorIndex[column].path)
      ensures vectorIndex[column].index.value.dimensions == old(vectorIndex[column].index.value.dimensions)
      ensures var p := PlanOf(batch, batchSize, numBatches);
        && (p.Ok? ==> r == Ok(()) && vectorIndex[column].index.value.entries == old(vectorIndex[column].index.value.entries) + p.value)
        && (!p.Ok? ==> r == Propagate(p))
    {
      ghost var index := vectorIndex[column];
      ghost var base := index.index.value.entries;
      var b := 0;
      var offset := 0;
      while b < numBatches
        invariant 0 <= b <= numBatches
        invariant offset == BatchOffset(batchSize, b)
        invariant index.index.Some?
        invariant index.path == old(index.path)
        invariant index.index.value.dimensions == old(index.index.value.dimensions)
        invariant PlanOf(batch, batchSize, b).Ok?
        invariant index.index.value.entries == base + PlanOf(batch, batchSize, b).value
      {
        var step := NextBatch(column, batchSize, b, offset, mm, modelId, batch, base);
        if !step.Ok? {
          PlanStopsAtFailure(batch, batchSize, b + 1, numBatches);
          return step;
        }
        b := b + 1;
        offset := offset + batchSize;
      }
      r := Ok(());
    }

    /** The first part of `embed_column` for a column with no index: a
        new, empty index of the model's output dimension, registered under
        the column's name. */
    method RegisterIndex(column: string, mm: ModelManager, modelId: nat, home: string) returns (r: Result<()>)
      requires Valid() && column !in vectorIndex
      modifies this
      ensures Valid()
      ensures config == old(config) && conn == old(conn)
      ensures r.Ok? <==> OutputDimOf(mm.models, modelId).Ok?
      ensures !r.Ok? ==> r.Panic? && vectorIndex == old(vectorIndex)
      ensures r.Ok? ==> column in vectorIndex && var index := vectorIndex[column];
        && vectorIndex == old(vectorIndex)[column := index]
        && fresh(index)
        && index.path == IndexPath(home, config.name, column)
        && index.index == Some(Usearch.Index(AsUsize(OutputDimOf(mm.models, modelId).value), NEW_INDEX_CAPACITY, multiset{}))
    {
      var vectorDim := mm.OutputDim(modelId);
      vectorDim := Unwrap(vectorDim);
      if !vectorDim.Ok? {
        return Propagate(vectorDim);
      }
      var index := new VectorIndex(IndexPath(home, config.name, column), true);
      index.WithOptions(AsUsize(vectorDim.value), NEW_INDEX_CAPACITY);
      vectorIndex := vectorIndex[column := index];
      r := Ok(());
    }

    /** The rest of `embed_column` once the column has an index: the
        batches, then saving the index. */
    method EmbedRegistered(column: string, batchSize: nat, mm: ModelManager, modelId: nat) returns (r: Result<()>)
      requires Valid() && column in vectorIndex && batchSize > 0
      modifies vectorIndex[column]
      ensures Valid()
      ensures vectorIndex[column].path == old(vectorIndex[column].path)
      ensures vectorIndex[column].index.value.dimensions == old(vectorIndex[column].index.value.dimensions)
      ensures var plan := PlanEntries(EmbedJob(conn, mm.models, modelId, config.name, column, batchSize), EMBED_ROWS / batchSize);
        && (plan.Ok? ==> r == Ok(()) && vectorIndex[column].index.value.entries == old(vectorIndex[column].index.value.entries) + plan.value)
        && (!plan.Ok? ==> r.Panic?)
    {
      ghost var job := Job(column, batchSize, mm, modelId);
      BatchesOfRuns(job);
      PlanPanics(job, EMBED_ROWS / batchSize);
      r := RunBatches(column, batchSize, EMBED_ROWS / batchSize, mm, modelId, BatchesOf(job));
      if !r.Ok? {
        return;
      }
      var saved := vectorIndex[column].Save();
      r := Ok(());
    }

    /** `embed_column`: make the column's index if none is registered under
        its name, run the batches `0 .. 4096 / batchSize`, save the index. */
    method EmbedColumn(column: string, batchSize: nat, mm: ModelManager, modelId: nat, home: string)
      returns (r: Result<()>)
      requires Valid()
      modifies this, vectorIndex.Values
      ensures Valid()
      ensures forall v :: v in old(vectorIndex.Values) ==> v.index.Some?
      ensures config == old(config) && conn == old(conn)
      ensures column in old(vectorIndex) ==> vectorIndex == old(vectorIndex)
      ensures column in old(vectorIndex) ==>
        && vectorIndex[column].path == old(vectorIndex[column].path)
        && vectorIndex[column].index.value.dimensions == old(vectorIndex[column].index.value.dimensions)
      ensures forall c :: c in old(vectorIndex) && c != column ==>
        && c in vectorIndex && vectorIndex[c] == old(vectorIndex[c])
        && vectorIndex[c].index == old(vectorIndex[c].index) && vectorIndex[c].path == old(vectorIndex[c].path)
      ensures column !in old(vectorIndex) ==>
        (vectorIndex == old(vectorIndex) ||
         (column in vectorIndex && vectorIndex == old(vectorIndex)[column := vectorIndex[column]]))
      ensures batchSize == 0 ==> r == Panic(DIVIDE_BY_ZERO)
      ensures batchSize > 0 ==>
        var plan := PlanEntries(EmbedJob(conn, mm.models, modelId, config.name, column, batchSize), EMBED_ROWS / batchSize);
        && (r.Ok? <==> (column in old(vectorIndex) || OutputDimOf(mm.models, modelId).Ok?) && plan.Ok?)
        && (!r.Ok? ==> r.Panic?)
        && (r.Ok? ==> column in vectorIndex
                      && vectorIndex[column].index.value.entries == old(EntriesIn(column)) + plan.value)
      ensures r.Ok? && column !in old(vectorIndex) ==>
        && fresh(vectorIndex[column])
        && vectorIndex[column].path == IndexPath(home, config.name, column)
        && vectorIndex[column].index.value.dimensions == AsUsize(OutputDimOf(mm.models, modelId).value)
    {
      if batchSize == 0 {
        return Panic(DIVIDE_BY_ZERO);
      }
      if column !in vectorIndex {
        r := RegisterIndex(column, mm, modelId, home);
        if !r.Ok? {
          return;
        }
      }
      r := EmbedRegistered(column, batchSize, mm, modelId);
    }
  }
}
