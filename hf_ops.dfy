/** Model resolution against the HuggingFace Hub, src/hf_ops.rs: parsing an
    `hf://user/repo` path, the cached download of one file, the download of a
    letsearch model (metadata, chosen variant, required files) and the model
    listing sorted by downloads.

    The network enters as a function from a request to what sending it got
    back (building the client is taken to succeed). The response carries
    the status, the raw Content-Length header, the body stream as a
    sequence of chunk outcomes, and what decoding the body as JSON into
    each of the shapes the source asks for would give. */
module HfOps {
  import opened Wrappers
  import opened Json
  import opened Paths
  import opened Numbers
  import opened CollectionUtils

  type byte = b: int | 0 <= b < 256

  const HF_SCHEME := "hf://"
  const MODELS_DIR := "models"
  const METADATA_FILE := "metadata.json"
  const LETSEARCH_FILTER := "letsearch"

  const NOT_HF_PATH := "This is probabably not a proper HuggingFace path. Check it out"
  const NOT_COMPATIBLE := "This is probably not a letsearch-compatible model. Check it out"
  const NOT_LETSEARCH := "This is probably not a letsearch model. check it out"
  const VARIANT_NOT_FOUND := "Variant not found in config"
  const UNREACHABLE := "internal error: entered unreachable code: unreachable"
  const FETCH_INFO_FAILED := "Failed to fetch model info: "
  const LIST_FAILED := "Failed to list models: "
  const DOWNLOAD_FAILED := "Failed to download file: "
  const UNKNOWN_STATUS := "<unknown status code>"
  const NOT_FOUND := "No such file or directory (os error 2)"
  const IS_A_DIRECTORY := "Is a directory (os error 21)"

  const NO_MODELS := "No letsearch-compatible models found on HuggingFace Hub :("
  const TRY_CONVERT := "Maybe trying to convert your own?"
  const BANNER := "==============="
  const LISTED_PREFIX := "     hf://"
  const TOKEN_HINT := "If you cannot see a private model of yours, try using `--hf-token` argument or setting `HF_TOKEN` as an environment variable."

  /** `Model`: one entry of the Hub's model listing. */
  datatype Model = Model(
    id: string,
    likes: Option<nat>,
    private: bool,
    downloads: Option<nat>,
    tags: Option<seq<string>>,
    modelId: string)

  datatype BlobLfsInfo = BlobLfsInfo(size: Option<nat>, sha256: Option<string>, pointerSize: Option<nat>)

  datatype RepoFile = RepoFile(rfilename: string, size: Option<nat>, blobId: Option<string>, lfs: Option<BlobLfsInfo>)

  /** `ModelInfo`: what the Hub reports about one repository. */
  datatype ModelInfo = ModelInfo(
    modelId: Option<string>,
    sha: Option<string>,
    lastModified: Option<string>,
    tags: Option<seq<string>>,
    pipelineTag: Option<string>,
    siblings: Option<seq<RepoFile>>,
    private: bool,
    author: Option<string>,
    config: Option<Json>,
    securityStatus: Option<Json>)

  /** A GET request: its URL and its `Authorization` header, if any. */
  datatype Request = Request(url: string, authorization: Option<string>)

  /** What the client got back. `reason` is the canonical reason phrase of
      the status code, when the HTTP table has one. */
  datatype Response = Response(
    status: nat,
    reason: Option<string>,
    contentLength: Option<string>,
    chunks: seq<Result<seq<byte>>>,
    models: Result<seq<Model>>,
    info: Result<ModelInfo>)

  type Fetch = Request -> Result<Response>

  // ---------------------------------------------------------------------
  // Requests and responses

  function ModelInfoUrl(repoId: string, filesMetadata: bool): string {
    "https://huggingface.co/api/models/" + repoId + (if filesMetadata then "?blobs=true" else "")
  }

  function ModelsUrl(filter: string): string {
    "https://huggingface.co/api/models?filter=" + filter
  }

  function FileUrl(repoId: string, fileName: string): string {
    "https://huggingface.co/" + repoId + "/resolve/main/" + fileName
  }

  /** Asking for the files' metadata only appends the `blobs` query. */
  lemma ModelInfoUrlSuffix(repoId: string)
    ensures ModelInfoUrl(repoId, true) == ModelInfoUrl(repoId, false) + "?blobs=true"
    ensures ModelInfoUrl(repoId, false) == "https://huggingface.co/api/models/" + repoId
  {
  }

  /** A byte `HeaderValue::from_str` accepts. */
  predicate HeaderChar(c: char) {
    (' ' <= c && c as int != 127) || c == '\t'
  }

  /** The `Authorization` header for an optional token; building it
      unwraps `HeaderValue::from_str`, which refuses control characters. */
  function AuthHeader(token: Option<string>): (r: Result<Option<string>>)
    ensures token.None? ==> r == Ok(None)
    ensures token.Some? && (forall i :: 0 <= i < |token.value| ==> HeaderChar(token.value[i])) ==>
      r == Ok(Some("BEARER " + token.value))
    ensures token.Some? && (exists i :: 0 <= i < |token.value| && !HeaderChar(token.value[i])) ==>
      r == Panic(UNWRAP_PANIC)
  {
    match token
    case None => Ok(None)
    case Some(t) =>
      if forall i :: 0 <= i < |t| ==> HeaderChar(t[i]) then Ok(Some("BEARER " + t))
      else Panic(UNWRAP_PANIC)
  }

  /** `StatusCode::is_success`. */
  predicate IsSuccess(status: nat) {
    200 <= status < 300
  }

  /** How a `StatusCode` displays: the code, then its reason phrase. */
  function StatusText(resp: Response): string {
    NatToString(resp.status) + " " + (match resp.reason case Some(p) => p case None => UNKNOWN_STATUS)
  }

  /** The progress bar's length: the Content-Length header parsed as a
      `u64`, and 0 when it is missing or does not parse. */
  function ContentLength(header: Option<string>): nat {
    match header
    case None => 0
    case Some(s) => match ParseU64(s) case Some(n) => n case None => 0
  }

  /** A well-formed Content-Length is taken at its value. */
  lemma ContentLengthOfNumber(n: nat)
    requires n < U64_LIMIT
    ensures ContentLength(Some(NatToString(n))) == n
  {
    ParseFormatted(n);
  }

  /** A header that is absent or has no digits gives length 0. */
  lemma ContentLengthDefaultsToZero(header: Option<string>)
    requires header.Some? ==> forall i :: 0 <= i < |header.value| ==> !IsDigit(header.value[i])
    ensures ContentLength(header) == 0
  {
    if header.Some? {
      var s := header.value;
      var digits := if |s| > 0 && s[0] == '+' then s[1..] else s;
      if |digits| > 0 {
        assert !IsDigit(digits[0]);
      }
    }
  }

  /** `get_model_info`: an HTTP failure status is an error naming it; a
      success gives what the body decodes to. */
  function GetModelInfo(repoId: string, filesMetadata: bool, fetch: Fetch): (r: Result<ModelInfo>)
    ensures var got := fetch(Request(ModelInfoUrl(repoId, filesMetadata), None));
      && (r.Ok? <==> got.Ok? && IsSuccess(got.value.status) && got.value.info.Ok?)
      && (r.Ok? ==> r == got.value.info)
      && (!got.Ok? ==> r == Propagate(got))
      && (got.Ok? && !IsSuccess(got.value.status) ==> r == Err(FETCH_INFO_FAILED + StatusText(got.value)))
  {
    var got := fetch(Request(ModelInfoUrl(repoId, filesMetadata), None));
    if !got.Ok? then Propagate(got)
    else if !IsSuccess(got.value.status) then Err(FETCH_INFO_FAILED + StatusText(got.value))
    else got.value.info
  }

  /** `get_models`: the listing filtered by tag, sent with the token when
      there is one. */
  function GetModels(filter: string, token: Option<string>, fetch: Fetch): (r: Result<seq<Model>>)
    ensures AuthHeader(token).Panic? ==> r == Panic(UNWRAP_PANIC)
    ensures AuthHeader(token).Ok? ==>
      var got := fetch(Request(ModelsUrl(filter), AuthHeader(token).value));
      && (r.Ok? <==> got.Ok? && IsSuccess(got.value.status) && got.value.models.Ok?)
      && (r.Ok? ==> r == got.value.models)
      && (!got.Ok? ==> r == Propagate(got))
      && (got.Ok? && !IsSuccess(got.value.status) ==> r == Err(LIST_FAILED + StatusText(got.value)))
  {
    var auth := AuthHeader(token);
    if !auth.Ok? then Propagate(auth)
    else
      var got := fetch(Request(ModelsUrl(filter), auth.value));
      if !got.Ok? then Propagate(got)
      else if !IsSuccess(got.value.status) then Err(LIST_FAILED + StatusText(got.value))
      else got.value.models
  }

  // ---------------------------------------------------------------------
  // The body stream

  /** The bytes `download_file` writes: the chunks up to the end of the
      stream, the first chunk that failed or the first empty chunk. */
  function Received(chunks: seq<Result<seq<byte>>>): seq<byte> {
    if |chunks| == 0 || !chunks[0].Ok? || |chunks[0].value| == 0 then []
    else chunks[0].value + Received(chunks[1..])
  }

  predicate Delivered(c: Result<seq<byte>>) {
    c.Ok? && |c.value| > 0
  }

  /** A delivered chunk appends its bytes to what came before it. */
  lemma {:induction false} ReceivedAppend(chunks: seq<Result<seq<byte>>>, c: seq<byte>)
    requires forall i :: 0 <= i < |chunks| ==> Delivered(chunks[i])
    requires |c| > 0
    ensures Received(chunks + [Ok(c)]) == Received(chunks) + c
  {
    if |chunks| > 0 {
      assert (chunks + [Ok(c)])[1..] == chunks[1..] + [Ok(c)];
      ReceivedAppend(chunks[1..], c);
    }
  }

  /** A failed or empty chunk ends the download: nothing after it is
      written. */
  lemma {:induction false} ReceivedStops(chunks: seq<Result<seq<byte>>>, stop: Result<seq<byte>>, rest: seq<Result<seq<byte>>>)
    requires forall i :: 0 <= i < |chunks| ==> Delivered(chunks[i])
    requires !Delivered(stop)
    ensures Received(chunks + [stop] + rest) == Received(chunks)
  {
    if |chunks| > 0 {
      assert (chunks + [stop] + rest)[1..] == chunks[1..] + [stop] + rest;
      ReceivedStops(chunks[1..], stop, rest);
    }
  }

  // ---------------------------------------------------------------------
  // The file system

  /** The directories and files `download_model` sees, with the contents of
      each file. */
  class FileSystem {
    var dirs: set<string>
    var files: map<string, seq<byte>>

    constructor (dirs: set<string>, files: map<string, seq<byte>>)
      ensures this.dirs == dirs && this.files == files
    {
      this.dirs := dirs;
      this.files := files;
    }

    /** `Path::exists`. */
    predicate Exists(p: string)
      reads this
    {
      p in dirs || p in files
    }

    /** `fs::create_dir_all`. */
    method CreateDirAll(p: string)
      modifies this`dirs
      ensures dirs == old(dirs) + {p}
    {
      dirs := dirs + {p};
    }

    /** `File::create`: an empty file. */
    method Create(p: string)
      modifies this`files
      ensures files == old(files)[p := []]
    {
      files := files[p := []];
    }

    /** `write_all` on an open file. */
    method Append(p: string, bytes: seq<byte>)
      requires p in files
      modifies this`files
      ensures files == old(files)[p := old(files)[p] + bytes]
    {
      files := files[p := files[p] + bytes];
    }

    /** The bytes of `fs::read_to_string`, before they are decoded. */
    method Read(p: string) returns (r: Result<seq<byte>>)
      ensures p in files ==> r == Ok(files[p])
      ensures p !in files && p in dirs ==> r == Err(IS_A_DIRECTORY)
      ensures p !in files && p !in dirs ==> r == Err(NOT_FOUND)
    {
      if p in files {
        r := Ok(files[p]);
      } else if p in dirs {
        r := Err(IS_A_DIRECTORY);
      } else {
        r := Err(NOT_FOUND);
      }
    }
  }

  /** Downloads only add: no directory or file goes away and no existing
      file changes. */
  ghost predicate Grows(dirs0: set<string>, files0: map<string, seq<byte>>, dirs1: set<string>, files1: map<string, seq<byte>>) {
    dirs0 <= dirs1 && forall p :: p in files0 ==> p in files1 && files1[p] == files0[p]
  }

  /** The directories after `download_file` has made sure `dir` exists. */
  function WithDir(dirs: set<string>, files: map<string, seq<byte>>, dir: string): set<string> {
    if dir in dirs || dir in files then dirs else dirs + {dir}
  }

  /** What requesting `fileName` gives `download_file` once it is not
      cached: the response, when its status is a success, or the failure
      that ends the download. */
  function FileResponse(fetch: Fetch, repoId: string, fileName: string, token: Option<string>): (r: Result<Response>)
    ensures r.Ok? ==> IsSuccess(r.value.status)
  {
    var auth := AuthHeader(token);
    if !auth.Ok? then Propagate(auth)
    else
      var got := fetch(Request(FileUrl(repoId, fileName), auth.value));
      if !got.Ok? then got
      else if !IsSuccess(got.value.status) then Err(DOWNLOAD_FAILED + StatusText(got.value))
      else got
  }

  /** `download_file`: makes sure `dir` exists, and when `dir/fileName` is
      already there returns it without a request; otherwise the file is
      fetched and written chunk by chunk. `total` and `downloaded` are the
      progress bar's length and final position (0 and 0 for a cached
      file). */
  method DownloadFile(fs: FileSystem, fetch: Fetch, repoId: string, fileName: string, dir: string, token: Option<string>)
    returns (r: Result<string>, total: nat, downloaded: nat)
    modifies fs
    ensures fs.dirs == WithDir(old(fs.dirs), old(fs.files), dir)
    ensures Grows(old(fs.dirs), old(fs.files), fs.dirs, fs.files)
    ensures r.Ok? ==> r.value == Join(dir, fileName) && fs.Exists(r.value)
    ensures !r.Ok? ==> fs.files == old(fs.files)
    ensures var path := Join(dir, fileName);
      var cached := path in fs.dirs || path in old(fs.files);
      var auth := AuthHeader(token);
      var got := fetch(Request(FileUrl(repoId, fileName), if auth.Ok? then auth.value else None));
      && (cached ==> r == Ok(path) && fs.files == old(fs.files) && total == 0 && downloaded == 0)
      && (!cached && !auth.Ok? ==> r == Panic(UNWRAP_PANIC))
      && (!cached && auth.Ok? && !got.Ok? ==> r == Propagate(got))
      && (!cached && auth.Ok? && got.Ok? && !IsSuccess(got.value.status) ==>
            r == Err(DOWNLOAD_FAILED + StatusText(got.value)))
      && (!cached && auth.Ok? && got.Ok? && IsSuccess(got.value.status) ==>
            && r == Ok(path)
            && total == ContentLength(got.value.contentLength)
            && fs.files == old(fs.files)[path := Received(got.value.chunks)]
            && downloaded == |Received(got.value.chunks)|)
    ensures var path := Join(dir, fileName);
      var cached := path in fs.dirs || path in old(fs.files);
      var resp := FileResponse(fetch, repoId, fileName, token);
      && (!cached ==> (r.Ok? <==> resp.Ok?))
      && (!cached && !r.Ok? ==> r == Propagate(resp) && !fs.Exists(path))
  {
    total, downloaded := 0, 0;
    if !fs.Exists(dir) {
      fs.CreateDirAll(dir);
    }
    var path := Join(dir, fileName);
    if fs.Exists(path) {
      return Ok(path), total, downloaded;
    }
    var auth := AuthHeader(token);
    if !auth.Ok? {
      return Panic(UNWRAP_PANIC), total, downloaded;
    }
    var got := fetch(Request(FileUrl(repoId, fileName), auth.value));
    if !got.Ok? {
      return Propagate(got), total, downloaded;
    }
    var response := got.value;
    if !IsSuccess(response.status) {
      return Err(DOWNLOAD_FAILED + StatusText(response)), total, downloaded;
    }
    total := ContentLength(response.contentLength);
    fs.Create(path);
    downloaded := WriteStream(fs, path, response.chunks);
    r := Ok(path);
  }

  /** The `while let Some(Ok(chunk))` loop: each delivered chunk is written
      and counted, and the first failed or empty chunk ends it. */
  method WriteStream(fs: FileSystem, path: string, chunks: seq<Result<seq<byte>>>) returns (downloaded: nat)
    requires path in fs.files && fs.files[path] == []
    modifies fs`files
    ensures fs.files == old(fs.files)[path := Received(chunks)]
    ensures downloaded == |Received(chunks)|
  {
    downloaded := 0;
    ghost var written: seq<byte> := [];
    var i := 0;
    while i < |chunks| && Delivered(chunks[i])
      invariant 0 <= i <= |chunks|
      invariant fs.files == old(fs.files)[path := written]
      invariant Received(chunks) == written + Received(chunks[i..])
      invariant downloaded == |written|
    {
      var chunk := chunks[i].value;
      ReceivedFrom(chunks, i);
      fs.Append(path, chunk);
      written := written + chunk;
      downloaded := downloaded + |chunk|;
      i := i + 1;
    }
    ReceivedFrom(chunks, i);
    assert written + [] == written;
  }

  /** `Received` from position `i` on: nothing once the stream stops there,
      and otherwise the chunk at `i` followed by the rest. */
  lemma ReceivedFrom(chunks: seq<Result<seq<byte>>>, i: nat)
    requires i <= |chunks|
    ensures i == |chunks| || !Delivered(chunks[i]) ==> Received(chunks[i..]) == []
    ensures i < |chunks| && Delivered(chunks[i]) ==>
      Received(chunks[i..]) == chunks[i].value + Received(chunks[i + 1..])
  {
    if i < |chunks| {
      assert chunks[i..][0] == chunks[i];
      assert chunks[i..][1..] == chunks[i + 1..];
    }
  }

  // ---------------------------------------------------------------------
  // Paths on the Hub

  /** `str::replace(pattern, "")`: every non-overlapping occurrence, from the
      left, removed. */
  function RemoveAll(s: string, pattern: string): string
    requires |pattern| > 0
  {
    if |s| < |pattern| then s
    else if s[..|pattern|] == pattern then RemoveAll(s[|pattern|..], pattern)
    else [s[0]] + RemoveAll(s[1..], pattern)
  }

  /** `pattern` starts at no position of `s`. */
  predicate Free(s: string, pattern: string)
    requires |pattern| > 0
  {
    |s| < |pattern| || (s[..|pattern|] != pattern && Free(s[1..], pattern))
  }

  /** Removing a pattern that does not occur changes nothing. */
  lemma {:induction false} RemoveAllFree(s: string, pattern: string)
    requires |pattern| > 0 && Free(s, pattern)
    ensures RemoveAll(s, pattern) == s
  {
    if |s| >= |pattern| {
      RemoveAllFree(s[1..], pattern);
      assert [s[0]] + s[1..] == s;
    }
  }

  /** `str::split_once(c)`: the text before and after the first `c`. */
  function SplitOnce(s: string, c: char): (r: Option<(string, string)>)
    ensures r.Some? ==> s == r.value.0 + [c] + r.value.1 && c !in r.value.0
    ensures r.None? <==> c !in s
  {
    if |s| == 0 then None
    else if s[0] == c then Some(([], s[1..]))
    else match SplitOnce(s[1..], c)
      case None => None
      case Some((a, b)) => Some(([s[0]] + a, b))
  }

  /** The parts of a model path. */
  datatype RepoPath = RepoPath(repoId: string, username: string, repoName: string)

  /** The start of `download_model`: "hf://" removed, then the repository
      id split at its first '/'. */
  function ParseRepoPath(modelPath: string): (r: Result<RepoPath>)
    ensures !r.Panic?
    ensures r.Err? ==> r.msg == NOT_HF_PATH
    ensures r.Ok? <==> '/' in RemoveAll(modelPath, HF_SCHEME)
    ensures r.Ok? ==>
      && r.value.repoId == RemoveAll(modelPath, HF_SCHEME)
      && r.value.repoId == r.value.username + "/" + r.value.repoName
      && '/' !in r.value.username
  {
    var repoId := RemoveAll(modelPath, HF_SCHEME);
    match SplitOnce(repoId, '/')
    case None => Err(NOT_HF_PATH)
    case Some((user, name)) => Ok(RepoPath(repoId, user, name))
  }

  /** A plain `hf://user/repo` parses into its user and repository. */
  lemma ParsePlainPath(user: string, repo: string)
    requires '/' !in user
    requires Free(user + "/" + repo, HF_SCHEME)
    ensures ParseRepoPath(HF_SCHEME + user + "/" + repo) == Ok(RepoPath(user + "/" + repo, user, repo))
  {
    var id := user + "/" + repo;
    assert (HF_SCHEME + id)[..|HF_SCHEME|] == HF_SCHEME;
    assert (HF_SCHEME + id)[|HF_SCHEME|..] == id;
    assert HF_SCHEME + user + "/" + repo == HF_SCHEME + id;
    RemoveAllFree(id, HF_SCHEME);
    assert id[|user|] == '/';
    var split := SplitOnce(id, '/');
    assert split.Some?;
    SplitOnceUnique(id, '/', user, repo);
  }

  /** The text before the first `c` and the text after it are the parts
      `split_once` gives. */
  lemma {:induction false} SplitOnceUnique(s: string, c: char, a: string, b: string)
    requires s == a + [c] + b && c !in a
    ensures SplitOnce(s, c) == Some((a, b))
  {
    if |a| == 0 {
      assert s[1..] == b;
    } else {
      assert a[0] in a;
      assert s[1..] == a[1..] + [c] + b;
      assert c !in a[1..] by {
        forall x | x in a[1..] ensures x in a { }
      }
      SplitOnceUnique(s[1..], c, a[1..], b);
      assert [s[0]] + a[1..] == a;
    }
  }

  /** `home/models/username/repo_name`. */
  function DestinationDir(home: string, username: string, repoName: string): string {
    Join(Join(Join(home, MODELS_DIR), username), repoName)
  }

  predicate PlainName(s: string) {
    |s| > 0 && '/' !in s
  }

  /** For plain names the destination is the home directory with
      "/models/user/repo" appended. */
  lemma DestinationOfPlainNames(home: string, username: string, repoName: string)
    requires |home| > 0 && home[|home| - 1] != '/'
    requires PlainName(username) && PlainName(repoName)
    ensures DestinationDir(home, username, repoName) == home + "/models/" + username + "/" + repoName
  {
    assert username[0] != '/' && repoName[0] != '/' by {
      assert username[0] in username && repoName[0] in repoName;
    }
  }

  // ---------------------------------------------------------------------
  // The metadata

  /** `v["variant"] == variant`. */
  predicate IsVariant(v: Json, variant: string) {
    Field(v, "variant") == JStr(variant)
  }

  /** `variants.iter().find(...)`: the first entry naming `variant`. */
  function FindVariant(variants: seq<Json>, variant: string): (k: Option<nat>)
    ensures k.Some? ==> k.value < |variants| && IsVariant(variants[k.value], variant)
    ensures k.Some? ==> forall j :: 0 <= j < k.value ==> !IsVariant(variants[j], variant)
    ensures k.None? <==> forall j :: 0 <= j < |variants| ==> !IsVariant(variants[j], variant)
  {
    if |variants| == 0 then None
    else if IsVariant(variants[0], variant) then Some(0)
    else match FindVariant(variants[1..], variant)
      case None => None
      case Some(k) => Some(k + 1)
  }

  /** Signed decimal text, as `{}` prints an `i64`. */
  function IntToString(v: int): string {
    if v < 0 then "-" + NatToString(-v) else NatToString(v)
  }

  /** The message of `assert_eq!(version, 1)`. */
  function VersionMismatch(version: int): string {
    "assertion `left == right` failed\n  left: " + IntToString(version) + "\n right: 1"
  }

  /** The checks of `download_model` on metadata.json, in their order: an
      integer `letsearch_version` that must be 1, an array `variants`, an
      entry for the requested variant, and its `path`. */
  function SelectVariant(config: Json, variant: string): (r: Result<string>)
    ensures var version := AsI64(Field(config, "letsearch_version"));
      var variants := AsArray(Field(config, "variants"));
      && (version.None? ==> r == Err(NOT_COMPATIBLE))
      && (version.Some? && version.value != 1 ==> r == Panic(VersionMismatch(version.value)))
      && (version == Some(1) && variants.None? ==> r == Err(NOT_LETSEARCH))
      && (version == Some(1) && variants.Some? ==>
            var k := FindVariant(variants.value, variant);
            && (k.None? ==> r == Err(VARIANT_NOT_FOUND))
            && (k.Some? ==> r == match AsStr(Field(variants.value[k.value], "path"))
                                 case Some(p) => Ok(p)
                                 case None => Panic(UNREACHABLE)))
  {
    match AsI64(Field(config, "letsearch_version"))
    case None => Err(NOT_COMPATIBLE)
    case Some(version) =>
      if version != 1 then Panic(VersionMismatch(version))
      else match AsArray(Field(config, "variants"))
        case None => Err(NOT_LETSEARCH)
        case Some(variants) =>
          match FindVariant(variants, variant)
          case None => Err(VARIANT_NOT_FOUND)
          case Some(k) =>
            match AsStr(Field(variants[k], "path"))
            case Some(p) => Ok(p)
            case None => Panic(UNREACHABLE)
  }

  /** Of several entries for the same variant, the first one's path is the
      one downloaded. */
  lemma {:induction false} FirstVariantWins(variants: seq<Json>, variant: string, k: nat, path: string)
    requires k < |variants| && IsVariant(variants[k], variant)
    requires forall j :: 0 <= j < k ==> !IsVariant(variants[j], variant)
    requires AsStr(Field(variants[k], "path")) == Some(path)
    ensures SelectVariant(JObj(map["letsearch_version" := JInt(1), "variants" := JArr(variants)]), variant) == Ok(path)
  {
    var config := JObj(map["letsearch_version" := JInt(1), "variants" := JArr(variants)]);
    assert Field(config, "letsearch_version") == JInt(1);
    assert Field(config, "variants") == JArr(variants);
  }

  /** The names listed in `required_files`, if it is an array. */
  function RequiredFiles(config: Json): Option<seq<Json>> {
    AsArray(Field(config, "required_files"))
  }

  /** Every required file is named by a string and is present under
      `dir`. */
  ghost predicate RequiredPresent(names: seq<Json>, dir: string, fs: FileSystem)
    reads fs
  {
    forall k :: 0 <= k < |names| ==> names[k].JStr? && fs.Exists(Join(dir, names[k].s))
  }

  /** `names[j]` is the first required file that is not a string naming a
      present file. */
  ghost predicate FirstMissing(names: seq<Json>, dir: string, fs: FileSystem, j: nat)
    reads fs
  {
    && j < |names|
    && (forall i :: 0 <= i < j ==> names[i].JStr? && fs.Exists(Join(dir, names[i].s)))
    && !(names[j].JStr? && fs.Exists(Join(dir, names[j].s)))
  }

  /** `r` is how the loop over `required_files` fails at `name`: a name
      that is not a string panics on `unwrap`, and a string one fails as
      its request does. */
  ghost predicate RequiredFailure<T>(r: Result<T>, name: Json, fetch: Fetch, repoId: string, token: Option<string>) {
    if name.JStr? then
      var resp := FileResponse(fetch, repoId, name.s, token);
      !resp.Ok? && r == Propagate(resp)
    else r == Panic(UNWRAP_NONE_PANIC)
  }

  /** The `for file_name in required_files` loop: each name is unwrapped as
      a string and downloaded, in order; the first failure ends it. `k` is
      the number of names handled before the loop ended. */
  method DownloadRequired(fs: FileSystem, fetch: Fetch, repoId: string, names: seq<Json>, dir: string, token: Option<string>)
    returns (r: Result<()>, ghost k: nat)
    modifies fs
    ensures Grows(old(fs.dirs), old(fs.files), fs.dirs, fs.files)
    ensures k <= |names| && RequiredPresent(names[..k], dir, fs)
    ensures r.Ok? <==> k == |names|
    ensures r.Ok? ==> RequiredPresent(names, dir, fs)
    ensures k < |names| && !names[k].JStr? ==> r == Panic(UNWRAP_NONE_PANIC)
    ensures k < |names| && names[k].JStr? ==>
      && !fs.Exists(Join(dir, names[k].s))
      && !FileResponse(fetch, repoId, names[k].s, token).Ok?
      && r == Propagate(FileResponse(fetch, repoId, names[k].s, token))
  {
    var i := 0;
    while i < |names|
      invariant 0 <= i <= |names|
      invariant Grows(old(fs.dirs), old(fs.files), fs.dirs, fs.files)
      invariant RequiredPresent(names[..i], dir, fs)
    {
      assert names[..i + 1][..i] == names[..i];
      var name := AsStr(names[i]);
      if name.None? {
        return Panic(UNWRAP_NONE_PANIC), i;
      }
      ghost var dirs0, files0 := fs.dirs, fs.files;
      var got, _, _ := DownloadFile(fs, fetch, repoId, name.value, dir, token);
      assert RequiredPresent(names[..i], dir, fs) by {
        forall j | 0 <= j < i
          ensures fs.Exists(Join(dir, names[..i][j].s))
        {
          assert Join(dir, names[..i][j].s) in dirs0 || Join(dir, names[..i][j].s) in files0;
        }
      }
      if !got.Ok? {
        return Propagate(got), i;
      }
      i := i + 1;
    }
    assert names[..i] == names;
    r, k := Ok(()), i;
  }

  /** Downloads metadata.json into `dir` and decodes it. */
  method FetchMetadata(fs: FileSystem, fetch: Fetch, parseJson: seq<byte> -> Result<Json>, repoId: string, dir: string, token: Option<string>)
    returns (r: Result<Json>)
    modifies fs
    ensures Grows(old(fs.dirs), old(fs.files), fs.dirs, fs.files)
    ensures var meta := Join(dir, METADATA_FILE);
      && (meta in fs.files ==> r == parseJson(fs.files[meta]))
      && (meta !in fs.files ==> !r.Ok?)
  {
    var path, _, _ := DownloadFile(fs, fetch, repoId, METADATA_FILE, dir, token);
    if !path.Ok? {
      return Propagate(path);
    }
    var text := fs.Read(path.value);
    if !text.Ok? {
      return Propagate(text);
    }
    r := parseJson(text.value);
  }

  /** How `download_model` ends once the variant's file `file` is chosen:
      it succeeds exactly when that file and every required file are
      present, with the file's directory and name; a missing variant file
      is the failure of its request, and otherwise the first missing
      required file decides the failure. */
  ghost predicate VariantOutcome(r: Result<(string, string)>, config: Json, file: string, dest: string,
                                 fs: FileSystem, fetch: Fetch, repoId: string, token: Option<string>)
    reads fs
  {
    var local := Join(dest, file);
    var resp := FileResponse(fetch, repoId, file, token);
    var required := RequiredFiles(config);
    && (r.Ok? <==> fs.Exists(local) && (required.Some? ==> RequiredPresent(required.value, dest, fs)))
    && (r.Ok? ==> r.value == (Parent(local), FileName(local)))
    && (!fs.Exists(local) ==> !resp.Ok? && r == Propagate(resp))
    && (fs.Exists(local) && required.Some? ==>
          forall j: nat :: FirstMissing(required.value, dest, fs, j) ==> RequiredFailure(r, required.value[j], fetch, repoId, token))
  }

  /** The name the required-files loop stopped at is the first missing
      one, so every first missing name carries that failure. */
  lemma StopIsFirstMissing<T>(names: seq<Json>, dir: string, fs: FileSystem, k: nat, r: Result<T>,
                              fetch: Fetch, repoId: string, token: Option<string>)
    requires k < |names| && RequiredPresent(names[..k], dir, fs)
    requires !(names[k].JStr? && fs.Exists(Join(dir, names[k].s)))
    requires RequiredFailure(r, names[k], fetch, repoId, token)
    ensures !RequiredPresent(names, dir, fs)
    ensures forall j: nat :: FirstMissing(names, dir, fs, j) ==> RequiredFailure(r, names[j], fetch, repoId, token)
  {
    assert forall i :: 0 <= i < k ==> names[..k][i] == names[i];
  }

  /** `download_model`: the model file of the requested variant and the
      required files, downloaded into `home/models/username/repo_name`;
      the result is the downloaded model file's directory and name.
      `parseJson` reads bytes as UTF-8 text holding JSON. */
  method DownloadModel(fs: FileSystem, fetch: Fetch, parseJson: seq<byte> -> Result<Json>, letsearchHome: Option<string>,
                       modelPath: string, variant: string, token: Option<string>)
    returns (r: Result<(string, string)>)
    modifies fs
    ensures Grows(old(fs.dirs), old(fs.files), fs.dirs, fs.files)
    ensures !ParseRepoPath(modelPath).Ok? ==> r == Err(NOT_HF_PATH) && fs.dirs == old(fs.dirs) && fs.files == old(fs.files)
    ensures ParseRepoPath(modelPath).Ok? ==>
      var repo := ParseRepoPath(modelPath).value;
      var dest := DestinationDir(HomeDir(letsearchHome), repo.username, repo.repoName);
      var meta := Join(dest, METADATA_FILE);
      && (meta !in fs.files ==> !r.Ok?)
      && (meta in fs.files && !parseJson(fs.files[meta]).Ok? ==> r == Propagate(parseJson(fs.files[meta])))
      && (meta in fs.files && parseJson(fs.files[meta]).Ok? ==>
            var config := parseJson(fs.files[meta]).value;
            var selected := SelectVariant(config, variant);
            && (!selected.Ok? ==> r == Propagate(selected))
            && (selected.Ok? ==> VariantOutcome(r, config, selected.value, dest, fs, fetch, repo.repoId, token)))
  {
    var repo := ParseRepoPath(modelPath);
    if !repo.Ok? {
      return Propagate(repo);
    }
    var dest := DestinationDir(HomeDir(letsearchHome), repo.value.username, repo.value.repoName);
    ghost var meta := Join(dest, METADATA_FILE);
    var config := FetchMetadata(fs, fetch, parseJson, repo.value.repoId, dest, token);
    if !config.Ok? {
      return Propagate(config);
    }
    ghost var files0 := fs.files;
    var selected := SelectVariant(config.value, variant);
    if !selected.Ok? {
      return Propagate(selected);
    }
    var local, _, _ := DownloadFile(fs, fetch, repo.value.repoId, selected.value, dest, token);
    if !local.Ok? {
      return Propagate(local);
    }
    ghost var dirs1, files1 := fs.dirs, fs.files;
    var required := RequiredFiles(config.value);
    if required.Some? {
      var done, k := DownloadRequired(fs, fetch, repo.value.repoId, required.value, dest, token);
      if !done.Ok? {
        assert fs.Exists(local.value) by {
          assert local.value in dirs1 || local.value in files1;
        }
        r := Propagate(done);
        assert RequiredFailure(r, required.value[k], fetch, repo.value.repoId, token);
        StopIsFirstMissing(required.value, dest, fs, k, r, fetch, repo.value.repoId, token);
        assert meta in files0;
        return;
      }
    }
    assert fs.Exists(local.value) by {
      assert local.value in dirs1 || local.value in files1;
    }
    assert meta in files0;
    r := Ok((Parent(local.value), FileName(local.value)));
  }

  /** For a plain destination and a plain variant file name, the result of
      `download_model` is the destination directory and the file name. */
  lemma DownloadedModelSplits(dest: string, file: string)
    requires |dest| > 0 && dest[|dest| - 1] != '/'
    requires PlainName(file)
    ensures (Parent(Join(dest, file)), FileName(Join(dest, file))) == (dest, file)
  {
    assert forall i :: 0 <= i < |file| ==> file[i] != '/' by {
      forall i | 0 <= i < |file| ensures file[i] != '/' {
        assert file[i] in file;
      }
    }
    JoinThenSplit(dest, file);
  }

  // ---------------------------------------------------------------------
  // The listing

  /** `b.downloads.cmp(&a.downloads)` orders by this rank, highest first:
      `None` compares below every count. */
  function Rank(m: Model): int {
    match m.downloads
    case None => -1
    case Some(d) => d
  }

  ghost predicate ByDownloads(s: seq<Model>) {
    forall i, j :: 0 <= i < j < |s| ==> Rank(s[i]) >= Rank(s[j])
  }

  /** In an ordered listing every model with a count comes before every
      model without one. */
  lemma UncountedLast(s: seq<Model>, i: nat, j: nat)
    requires ByDownloads(s)
    requires i < |s| && j < |s|
    requires s[i].downloads.None? && s[j].downloads.Some?
    ensures j < i
  {
  }

  method Swap(a: array<Model>, i: nat, j: nat)
    requires i < j < a.Length
    modifies a
    ensures a[i] == old(a[j]) && a[j] == old(a[i])
    ensures forall k :: 0 <= k < a.Length && k != i && k != j ==> a[k] == old(a[k])
    ensures multiset(a[..]) == multiset(old(a[..]))
  {
    a[i], a[j] := a[j], a[i];
  }

  /** `models.sort_by(|a, b| b.downloads.cmp(&a.downloads))`, as an
      insertion sort. */
  method SortByDownloads(a: array<Model>)
    modifies a
    ensures ByDownloads(a[..])
    ensures multiset(a[..]) == multiset(old(a[..]))
  {
    var i := 0;
    while i < a.Length
      invariant 0 <= i <= a.Length
      invariant forall p, q :: 0 <= p < q < i ==> Rank(a[p]) >= Rank(a[q])
      invariant multiset(a[..]) == multiset(old(a[..]))
    {
      var j := i;
      while j > 0 && Rank(a[j - 1]) < Rank(a[j])
        invariant 0 <= j <= i
        invariant forall p, q :: 0 <= p < q <= i && p != j && q != j ==> Rank(a[p]) >= Rank(a[q])
        invariant forall q :: j < q <= i ==> Rank(a[q]) < Rank(a[j])
        invariant multiset(a[..]) == multiset(old(a[..]))
      {
        Swap(a, j - 1, j);
        j := j - 1;
      }
      i := i + 1;
    }
  }

  /** The `hf://` line printed for each model, in order. */
  function Listing(models: seq<Model>): (lines: seq<string>)
    ensures |lines| == |models|
    ensures forall k :: 0 <= k < |models| ==> lines[k] == LISTED_PREFIX + models[k].modelId
  {
    if |models| == 0 then [] else [LISTED_PREFIX + models[0].modelId] + Listing(models[1..])
  }

  /** `list_models`: the letsearch models of the Hub, most downloaded
      first. `shown` is the order they are printed in and `out` the lines
      printed (the spinner's messages are not part of it). */
  method ListModels(fetch: Fetch, token: Option<string>) returns (r: Result<()>, shown: seq<Model>, out: seq<string>)
    ensures var got := GetModels(LETSEARCH_FILTER, token, fetch);
      && (!got.Ok? ==> r == Propagate(got) && out == [])
      && (got.Ok? && |got.value| == 0 ==> r == Ok(()) && out == [NO_MODELS, TRY_CONVERT])
      && (got.Ok? && |got.value| > 0 ==>
            && r == Ok(())
            && multiset(shown) == multiset(got.value)
            && ByDownloads(shown)
            && out == [BANNER] + Listing(shown) + ["", TOKEN_HINT])
  {
    shown := [];
    var got := GetModels(LETSEARCH_FILTER, token, fetch);
    if !got.Ok? {
      return Propagate(got), shown, [];
    }
    var models := got.value;
    if |models| == 0 {
      return Ok(()), shown, [NO_MODELS, TRY_CONVERT];
    }
    var a := new Model[|models|](i requires 0 <= i < |models| => models[i]);
    assert a[..] == models;
    SortByDownloads(a);
    shown := a[..];
    out := [BANNER] + Listing(shown) + ["", TOKEN_HINT];
    r := Ok(());
  }
}
