/** The vector index wrapper of src/collection/vector_index.rs: an optional
    usearch index and the directory it is saved to. */
module VectorIndexes {
  import opened Wrappers
  import opened Usearch
  import opened Paths

  const INDEX_FILE := "index.bin"

  /** One search hit: the key and 1 - distance. */
  datatype SimilarityResult = SimilarityResult(key: nat, score: real)

  /** `keys.iter().zip(distances.iter()).map(...)`: the pairs in match
      order, as long as the shorter of the two. */
  function Pair(keys: seq<nat>, distances: seq<real>): (r: seq<SimilarityResult>)
    ensures |r| == if |keys| < |distances| then |keys| else |distances|
    ensures forall i :: 0 <= i < |r| ==> r[i] == SimilarityResult(keys[i], 1.0 - distances[i])
  {
    if |keys| == 0 || |distances| == 0 then []
    else [SimilarityResult(keys[0], 1.0 - distances[0])] + Pair(keys[1..], distances[1..])
  }

  /** A capacity that is the floor of `required * 1.1`. */
  function Grown(required: nat): (c: nat)
    ensures c >= required
  {
    required * 11 / 10
  }

  /** The per-key loop of `add`: key `i` with row `i`, one add at a time.
      With room for every key, no add fails. */
  method AddRows(ix: Index, keys: seq<nat>, vectors: seq<real>, vectorDim: nat) returns (out: Index)
    requires |keys| * vectorDim <= |vectors|
    requires Size(ix) + |keys| <= ix.capacity
    ensures out.dimensions == ix.dimensions && out.capacity == ix.capacity
    ensures out.entries == ix.entries + RowEntries(keys, vectors, vectorDim, |keys|)
  {
    out := ix;
    var i := 0;
    while i < |keys|
      invariant 0 <= i <= |keys|
      invariant out.dimensions == ix.dimensions && out.capacity == ix.capacity
      invariant out.entries == ix.entries + RowEntries(keys, vectors, vectorDim, i)
      invariant Size(out) == Size(ix) + i
    {
      RowInBounds(i, |keys|, vectorDim);
      var added := Usearch.Add(out, keys[i], Row(vectors, i, vectorDim));
      out := added.value;
      i := i + 1;
    }
  }

  class VectorIndex {
    var index: Option<Index>
    var path: string

    /** `VectorIndex::new`: no index yet. Removing and creating the
        directory on disk are not modelled. */
    constructor (indexDir: string, overwrite: bool)
      ensures index == None && path == indexDir
    {
      index := None;
      path := indexDir;
    }

    /** `VectorIndex::from`: `loaded` is what usearch gave when loading
        `path/index.bin`. */
    static method From(path: string, loaded: Result<Index>) returns (r: Result<VectorIndex>)
      ensures r.Ok? <==> loaded.Ok?
      ensures r.Ok? ==> fresh(r.value) && r.value.index == Some(loaded.value) && r.value.path == path
      ensures !loaded.Ok? ==> r == Propagate(loaded)
    {
      if !loaded.Ok? {
        return Propagate(loaded);
      }
      var v := new VectorIndex(path, false);
      v.index := Some(loaded.value);
      r := Ok(v);
    }

    /** `with_options`: a new, empty index with room for `capacity` vectors. */
    method WithOptions(dimensions: nat, capacity: nat)
      modifies this
      ensures index == Some(Index(dimensions, capacity, multiset{}))
      ensures path == old(path)
    {
      index := Some(Reserve(NewIndex(dimensions), capacity));
    }

    /** `save`: the target file; writing it is not modelled. */
    method Save() returns (r: Result<string>)
      ensures index.None? ==> r == Panic(UNWRAP_NONE_PANIC)
      ensures index.Some? ==> r == Ok(Join(path, INDEX_FILE))
    {
      if index.None? {
        return Panic(UNWRAP_NONE_PANIC);
      }
      r := Ok(Join(path, INDEX_FILE));
    }

    /** `add`: grow the capacity when the keys would not fit, then add
        `keys[i]` with row `i` of the flat buffer, for every `i`. */
    method Add(keys: seq<nat>, vectors: seq<real>, vectorDim: nat) returns (r: Result<()>)
      requires |keys| * vectorDim <= |vectors|
      modifies this
      ensures path == old(path)
      ensures old(index).None? ==> r == Panic(UNWRAP_NONE_PANIC) && index == old(index)
      ensures old(index).Some? ==> r == Ok(()) && index.Some?
      ensures old(index).Some? ==> index.value.dimensions == old(index.value.dimensions)
      ensures old(index).Some? ==>
        index.value.entries == old(index.value.entries) + RowEntries(keys, vectors, vectorDim, |keys|)
      ensures old(index).Some? ==> Size(index.value) <= index.value.capacity
      ensures old(index).Some? && Size(old(index.value)) + |keys| <= old(index.value.capacity) ==>
        index.value.capacity == old(index.value.capacity)
    {
      if index.None? {
        return Panic(UNWRAP_NONE_PANIC);
      }
      var ix := index.value;
      var required := Size(ix) + |keys|;
      if required > ix.capacity {
        ix := Reserve(ix, Grown(required));
      }
      ix := AddRows(ix, keys, vectors, vectorDim);
      index := Some(ix);
      r := Ok(());
    }

    /** `search`: `found` is what usearch matched for the first `vectorDim`
        scalars of `query`; each match becomes a result in match order. */
    method Search(query: seq<real>, vectorDim: nat, count: nat, found: Result<Matches>)
      returns (r: Result<seq<SimilarityResult>>)
      requires vectorDim <= |query|
      ensures index.None? ==> r == Panic(UNWRAP_NONE_PANIC)
      ensures index.Some? && !found.Ok? ==> r == Propagate(found)
      ensures index.Some? && found.Ok? ==> r.Ok?
      ensures index.Some? && found.Ok? ==>
        |r.value| == (if |found.value.keys| < |found.value.distances| then |found.value.keys| else |found.value.distances|)
      ensures index.Some? && found.Ok? ==> forall i :: 0 <= i < |r.value| ==>
        r.value[i].key == found.value.keys[i] && r.value[i].score == 1.0 - found.value.distances[i]
    {
      if index.None? {
        return Panic(UNWRAP_NONE_PANIC);
      }
      if !found.Ok? {
        return Propagate(found);
      }
      r := Ok(Pair(found.value.keys, found.value.distances));
    }
  }
}
