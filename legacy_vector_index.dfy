/** The older vector index wrapper of src/vector_index.rs, which never
    grows the index before adding. */
module LegacyVectorIndexes {
  import opened Wrappers
  import opened Usearch
  import opened Paths

  const INDEX_FILE := "index.bin"

  class VectorIndex {
    var index: Option<Index>
    var path: string

    /** `VectorIndex::new`: the path is kept and there is no index yet.
        The directory operations are not modelled. */
    constructor (path: string, overwrite: bool)
      ensures index == None && this.path == path
    {
      index := None;
      this.path := path;
    }

    /** `with_options`: a new, empty index with room for `capacity` vectors. */
    method WithOptions(dimensions: nat, capacity: nat)
      modifies this
      ensures index == Some(Index(dimensions, capacity, multiset{}))
      ensures path == old(path)
    {
      index := Some(Reserve(NewIndex(dimensions), capacity));
    }

    /** `save`: the target file `path/index.bin`. */
    method Save() returns (r: Result<string>)
      ensures index.None? ==> r == Panic(UNWRAP_NONE_PANIC)
      ensures index.Some? ==> r == Ok(Join(path, INDEX_FILE))
    {
      if index.None? {
        return Panic(UNWRAP_NONE_PANIC);
      }
      r := Ok(Join(path, INDEX_FILE));
    }

    /** `add`: key `i` with row `i`, into the capacity the index already has;
        an add that does not fit is unwrapped and panics. */
    method Add(keys: seq<nat>, vectors: seq<real>, vectorDim: nat) returns (r: Result<()>)
      requires |keys| * vectorDim <= |vectors|
      modifies this
      ensures path == old(path)
      ensures old(index).None? ==> r == Panic(UNWRAP_NONE_PANIC) && index == old(index)
      ensures old(index).Some? ==>
        (r.Ok? <==> Size(old(index.value)) + |keys| <= old(index.value.capacity))
      ensures old(index).Some? && !r.Ok? ==> r == Panic(UNWRAP_PANIC)
      ensures r.Ok? ==> index == Some(old(index.value).(entries :=
        old(index.value.entries) + RowEntries(keys, vectors, vectorDim, |keys|)))
    {
      if index.None? {
        return Panic(UNWRAP_NONE_PANIC);
      }
      var ix := index.value;
      ghost var start := ix;
      var i := 0;
      while i < |keys|
        invariant 0 <= i <= |keys|
        invariant index == old(index) && path == old(path)
        invariant ix.dimensions == start.dimensions && ix.capacity == start.capacity
        invariant ix.entries == start.entries + RowEntries(keys, vectors, vectorDim, i)
        invariant Size(ix) == Size(start) + i <= start.capacity
      {
        RowInBounds(i, |keys|, vectorDim);
        RowEntriesShape(keys, vectors, vectorDim, i);
        var added := Usearch.Add(ix, keys[i], Row(vectors, i, vectorDim));
        if !added.Ok? {
          return Panic(UNWRAP_PANIC);
        }
        ix := added.value;
        i := i + 1;
      }
      index := Some(ix);
      r := Ok(());
    }
  }
}
