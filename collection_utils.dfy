/** The collection configuration, its serde defaults, and the home
    directory (src/collection/collection_utils.rs). */
module CollectionUtils {
  import opened Wrappers
  import opened Json

  type u32 = x: int | 0 <= x < 0x1_0000_0000

  const DEFAULT_HOME_DIR := ".letsearch"

  /** `home_dir()`, with the value of `LETSEARCH_HOME` (None when unset) as
      a parameter. */
  function HomeDir(letsearchHome: Option<string>): (home: string)
    ensures letsearchHome.Some? ==> home == letsearchHome.value
    ensures letsearchHome.None? ==> home == DEFAULT_HOME_DIR
  {
    match letsearchHome
    case Some(h) => h
    case None => DEFAULT_HOME_DIR
  }

  /** `CollectionConfig`, with the `model_name` field that the collection
      code reads. */
  datatype CollectionConfig = CollectionConfig(
    name: string,
    indexColumns: seq<string>,
    dbPath: string,
    serializationVersion: u32,
    modelName: string)

  function DefaultCollectionName(): string { "default" }
  function DefaultIndexColumns(): seq<string> { ["text"] }
  function DefaultDbPath(): string { "data.db" }
  function DefaultSerializationVersion(): u32 { 1 }
  /** No default is written for `model_name`; a `String` field marked
      `#[serde(default)]` takes the empty string. */
  function DefaultModelName(): string { "" }

  /** `CollectionConfig::default()`. */
  function Default(): (c: CollectionConfig)
    ensures c.name == "default" && c.dbPath == "data.db"
    ensures c.indexColumns == ["text"] && |c.indexColumns| > 0
    ensures c.serializationVersion == 1
  {
    CollectionConfig(
      DefaultCollectionName(),
      DefaultIndexColumns(),
      DefaultDbPath(),
      DefaultSerializationVersion(),
      DefaultModelName())
  }

  // JSON field names, as serde derives them from the Rust field names.
  const NAME_KEY := "name"
  const INDEX_COLUMNS_KEY := "index_columns"
  const DB_PATH_KEY := "db_path"
  const VERSION_KEY := "serialization_version"
  const MODEL_NAME_KEY := "model_name"

  const INVALID_TYPE := "invalid type"

  function EncodeStrings(xs: seq<string>): seq<Json> {
    if |xs| == 0 then [] else [JStr(xs[0])] + EncodeStrings(xs[1..])
  }

  /** Serializing a config: an object with one member per field. */
  function Serialize(c: CollectionConfig): Json {
    JObj(map[
      NAME_KEY := JStr(c.name),
      INDEX_COLUMNS_KEY := JArr(EncodeStrings(c.indexColumns)),
      DB_PATH_KEY := JStr(c.dbPath),
      VERSION_KEY := JInt(c.serializationVersion),
      MODEL_NAME_KEY := JStr(c.modelName)])
  }

  function DecodeStrings(items: seq<Json>): Option<seq<string>> {
    if |items| == 0 then Some([])
    else if !items[0].JStr? then None
    else match DecodeStrings(items[1..])
      case Some(rest) => Some([items[0].s] + rest)
      case None => None
  }

  /** A string field: its default when absent, an error when of another type. */
  function StringField(fields: map<string, Json>, key: string, default: string): Result<string> {
    if key !in fields then Ok(default)
    else if fields[key].JStr? then Ok(fields[key].s)
    else Err(INVALID_TYPE)
  }

  function StringsField(fields: map<string, Json>, key: string, default: seq<string>): Result<seq<string>> {
    if key !in fields then Ok(default)
    else if !fields[key].JArr? then Err(INVALID_TYPE)
    else match DecodeStrings(fields[key].items)
      case Some(xs) => Ok(xs)
      case None => Err(INVALID_TYPE)
  }

  function U32Field(fields: map<string, Json>, key: string, default: u32): Result<u32> {
    if key !in fields then Ok(default)
    else if fields[key].JInt? && 0 <= fields[key].i < 0x1_0000_0000 then Ok(fields[key].i)
    else Err(INVALID_TYPE)
  }

  /** Deserializing a config: each absent member takes its serde default,
      a member of the wrong type is an error, other members are ignored. */
  function Deserialize(j: Json): Result<CollectionConfig> {
    if !j.JObj? then Err(INVALID_TYPE)
    else
      var name := StringField(j.fields, NAME_KEY, DefaultCollectionName());
      var cols := StringsField(j.fields, INDEX_COLUMNS_KEY, DefaultIndexColumns());
      var db := StringField(j.fields, DB_PATH_KEY, DefaultDbPath());
      var version := U32Field(j.fields, VERSION_KEY, DefaultSerializationVersion());
      var model := StringField(j.fields, MODEL_NAME_KEY, DefaultModelName());
      if name.Ok? && cols.Ok? && db.Ok? && version.Ok? && model.Ok? then
        Ok(CollectionConfig(name.value, cols.value, db.value, version.value, model.value))
      else Err(INVALID_TYPE)
  }

  lemma {:induction false} DecodeEncodeStrings(xs: seq<string>)
    ensures DecodeStrings(EncodeStrings(xs)) == Some(xs)
  {
    if |xs| > 0 {
      DecodeEncodeStrings(xs[1..]);
      assert EncodeStrings(xs)[1..] == EncodeStrings(xs[1..]);
      assert [xs[0]] + xs[1..] == xs;
    }
  }

  /** Serializing a config and deserializing the result gives it back. */
  lemma RoundTrip(c: CollectionConfig)
    ensures Deserialize(Serialize(c)) == Ok(c)
  {
    DecodeEncodeStrings(c.indexColumns);
  }

  /** An empty object deserializes to exactly `default()`. */
  lemma EmptyObjectIsDefault()
    ensures Deserialize(JObj(map[])) == Ok(Default())
  {
  }

  /** Every member missing from an object that deserializes is filled in
      with the value `default()` has for that field. */
  lemma MissingFieldsTakeDefaults(fields: map<string, Json>)
    requires Deserialize(JObj(fields)).Ok?
    ensures var c := Deserialize(JObj(fields)).value;
      && (NAME_KEY !in fields ==> c.name == Default().name)
      && (INDEX_COLUMNS_KEY !in fields ==> c.indexColumns == Default().indexColumns)
      && (DB_PATH_KEY !in fields ==> c.dbPath == Default().dbPath)
      && (VERSION_KEY !in fields ==> c.serializationVersion == Default().serializationVersion)
      && (MODEL_NAME_KEY !in fields ==> c.modelName == Default().modelName)
  {
  }

  /** A present member of the wrong type is never replaced by a default. */
  lemma WrongTypeIsAnError(fields: map<string, Json>)
    requires NAME_KEY in fields && !fields[NAME_KEY].JStr?
    ensures Deserialize(JObj(fields)) == Err(INVALID_TYPE)
  {
  }
}
