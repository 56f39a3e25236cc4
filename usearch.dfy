/** The usearch index seen from outside: a key-to-vector multimap with a
    capacity. Graph construction and search quality are not modelled. */
module Usearch {
  import opened Wrappers

  datatype Entry = Entry(key: nat, vector: seq<real>)

  datatype IndexState = Index(dimensions: nat, capacity: nat, entries: multiset<Entry>)

  /** usearch never holds more entries than it has room for. */
  type Index = ix: IndexState | |ix.entries| <= ix.capacity witness Index(0, 0, multiset{})

  const RESERVE_AHEAD := "Reserve capacity ahead of insertions!"

  /** `index.size()`. */
  function Size(ix: Index): nat {
    |ix.entries|
  }

  /** `new_index(options)`: empty and without room. */
  function NewIndex(dimensions: nat): Index {
    Index(dimensions, 0, multiset{})
  }

  /** `index.reserve(n)`: room for at least `n` entries. */
  function Reserve(ix: Index, n: nat): (r: Index)
    ensures r.capacity >= n && r.capacity >= ix.capacity
    ensures r.dimensions == ix.dimensions && r.entries == ix.entries
  {
    if n <= ix.capacity then ix else ix.(capacity := n)
  }

  /** `index.add(key, vector)`: fails on a full index. */
  function Add(ix: Index, key: nat, vector: seq<real>): (r: Result<Index>)
    ensures r.Ok? <==> Size(ix) < ix.capacity
    ensures r.Ok? ==> r.value == ix.(entries := ix.entries + multiset{Entry(key, vector)})
    ensures !r.Ok? ==> r == Err(RESERVE_AHEAD)
  {
    if Size(ix) < ix.capacity then Ok(ix.(entries := ix.entries + multiset{Entry(key, vector)}))
    else Err(RESERVE_AHEAD)
  }

  /** What `index.search(query, count)` found: keys and distances. */
  datatype Matches = Matches(keys: seq<nat>, distances: seq<real>)

  /** Row `i` of a flat buffer of rows of `dim` scalars. */
  function Row(vectors: seq<real>, i: nat, dim: nat): seq<real>
    requires (i + 1) * dim <= |vectors|
  {
    vectors[i * dim..(i + 1) * dim]
  }

  lemma RowInBounds(i: nat, n: nat, dim: nat)
    requires i < n
    ensures (i + 1) * dim <= n * dim
  {
    var rest := n - (i + 1);
    assert n * dim == (i + 1) * dim + rest * dim;
    assert rest * dim >= 0;
  }

  /** The first `n` keys paired with their rows. */
  function RowEntries(keys: seq<nat>, vectors: seq<real>, dim: nat, n: nat): multiset<Entry>
    requires n <= |keys| && n * dim <= |vectors|
  {
    if n == 0 then multiset{}
    else
      RowInBounds(n - 1, n, dim);
      assert (n - 1) * dim <= n * dim;
      RowEntries(keys, vectors, dim, n - 1) + multiset{Entry(keys[n - 1], Row(vectors, n - 1, dim))}
  }

  /** Key `i` is paired with row `i`, for every `i` below `n`. */
  lemma {:induction false} RowEntriesHold(keys: seq<nat>, vectors: seq<real>, dim: nat, n: nat, i: nat)
    requires n <= |keys| && n * dim <= |vectors| && i < n
    ensures (i + 1) * dim <= |vectors|
    ensures Entry(keys[i], Row(vectors, i, dim)) in RowEntries(keys, vectors, dim, n)
  {
    RowInBounds(i, n, dim);
    if i < n - 1 {
      RowInBounds(n - 1, n, dim);
      RowEntriesHold(keys, vectors, dim, n - 1, i);
    }
  }

  /** The first `n` pairs are `n` entries, and every key in them is one of
      the first `n` keys. */
  lemma {:induction false} RowEntriesShape(keys: seq<nat>, vectors: seq<real>, dim: nat, n: nat)
    requires n <= |keys| && n * dim <= |vectors|
    ensures |RowEntries(keys, vectors, dim, n)| == n
    ensures forall e :: e in RowEntries(keys, vectors, dim, n) ==> e.key in keys[..n]
  {
    if n > 0 {
      RowInBounds(n - 1, n, dim);
      RowEntriesShape(keys, vectors, dim, n - 1);
    }
  }
}
