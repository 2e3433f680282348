/** The record source: a cursor over the `count` entries of an ordered store,
    kept in key order, that wraps to the first entry when it runs off the end.
    Entries are numbered `0 .. count - 1` in key order. */
module RecordCursor {
  import opened Arith

  /** The store backend the layer is configured with. */
  datatype Backend = LevelDb | Lmdb | UnknownBackend

  /** A LevelDB iterator is at an entry `pos < count` or, after stepping past
      the last one, at `count`, where it is not valid. */
  predicate IterValid(pos: nat, count: nat)
  {
    pos < count
  }

  /** LevelDB advance: `Next()`, and `SeekToFirst()` when the iterator is then
      no longer valid. The iterator is left valid, on the cyclic successor. */
  function LevelDbStep(pos: nat, count: nat): (next: nat)
    requires IterValid(pos, count)
    ensures IterValid(next, count)
    ensures next == (pos + 1) % count
  {
    var moved := pos + 1;
    if IterValid(moved, count) then moved else 0
  }

  /** Outcome of an LMDB cursor get: the entry it moved to, or not found. */
  datatype GetResult = Found(pos: nat) | NotFound

  /** `MDB_NEXT`: the following entry, not found after the last one. */
  function MdbNext(pos: nat, count: nat): (g: GetResult)
    ensures g.Found? <==> pos + 1 < count
  {
    if pos + 1 < count then Found(pos + 1) else NotFound
  }

  /** `MDB_FIRST`: the first entry, not found in an empty store. */
  function MdbFirst(count: nat): (g: GetResult)
    ensures g.Found? <==> count > 0
  {
    if count > 0 then Found(0) else NotFound
  }

  /** LMDB advance: `MDB_NEXT`, and `MDB_FIRST` when that finds nothing; in a
      non-empty store the first entry is always found. */
  function LmdbStep(pos: nat, count: nat): (next: nat)
    requires pos < count
    ensures next < count
    ensures next == (pos + 1) % count
  {
    match MdbNext(pos, count)
    case Found(q) => q
    case NotFound => MdbFirst(count).pos
  }

  /** One advance of the configured backend. */
  function Step(b: Backend, pos: nat, count: nat): (next: nat)
    requires b != UnknownBackend && pos < count
    ensures next < count
    ensures next == (pos + 1) % count
  {
    if b == LevelDb then LevelDbStep(pos, count) else LmdbStep(pos, count)
  }

  /** Position after `n` advances from `pos`. */
  function Advanced(b: Backend, pos: nat, n: nat, count: nat): (r: nat)
    requires b != UnknownBackend && pos < count
    ensures r < count
  {
    if n == 0 then pos else Step(b, Advanced(b, pos, n - 1, count), count)
  }

  /** Both backends walk the store cyclically: after `n` advances the cursor
      is on entry `(pos + n) mod count`. */
  lemma {:induction false} AdvancedIsCyclic(b: Backend, pos: nat, n: nat, count: nat)
    requires b != UnknownBackend && pos < count
    ensures Advanced(b, pos, n, count) == (pos + n) % count
  {
    if n == 0 {
      ModSmall(pos, count);
    } else {
      AdvancedIsCyclic(b, pos, n - 1, count);
      ModSucc(pos + n - 1, count);
    }
  }

  /** `count` advances from the first entry return to the first entry. */
  lemma WrapsToFirst(b: Backend, count: nat)
    requires b != UnknownBackend && count > 0
    ensures Advanced(b, 0, count, count) == 0
  {
    AdvancedIsCyclic(b, 0, count, count);
    DivModUnique(1, count, 0);
  }
}
