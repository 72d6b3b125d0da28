/**
 * The persistent store as the manager sees it: one reference per key, each
 * able to load, store and store-if-absent a value, and each of which may
 * fail. Whether a reference is reachable is decided by the environment; an
 * unreachable reference raises a persistence error on every call and
 * changes nothing.
 */
module Persistence {
  import opened Wrappers

  /** The four keys the manager persists under. */
  datatype Key = CassandraConfigKey | ExecutorConfigKey | ServersKey | SeedsKey

  /** A failed load or store on the reference for `key`. */
  datatype PersistenceError = PersistenceError(key: Key)

  /** The value-level state of one reference: what it holds, and whether
      calls on it succeed. */
  datatype Cell<T> = Cell(stored: Option<T>, reachable: bool)

  /** The cell after `store(v)`. */
  function Written<T>(c: Cell<T>, v: T): Cell<T> {
    if c.reachable then Cell(Some(v), true) else c
  }

  /** The value `putIfAbsent(v)` returns: what was held, else `v`. */
  function Present<T>(c: Cell<T>, v: T): T {
    c.stored.GetOr(v)
  }

  /** The cell after `putIfAbsent(v)`. */
  function Kept<T>(c: Cell<T>, v: T): Cell<T> {
    if c.reachable then Cell(Some(Present(c, v)), true) else c
  }

  /** Store-if-absent never overwrites a held value, always leaves a value
      behind on a reachable cell, and a second call changes nothing and
      returns what the first returned, whatever value it offers. */
  lemma KeptIsStable<T>(c: Cell<T>, v: T, w: T)
    ensures c.reachable ==> Kept(c, v).stored == Some(Present(c, v))
    ensures c.stored.Some? ==> Kept(c, v) == c && Present(c, v) == c.stored.value
    ensures Kept(Kept(c, v), w) == Kept(c, v)
    ensures c.reachable ==> Present(Kept(c, v), w) == Present(c, v)
  {
  }

  /** One persistent reference, named by `key`. */
  class PersistentReference<T> {
    const key: Key
    var stored: Option<T>
    var reachable: bool

    constructor (key: Key, stored: Option<T>, reachable: bool)
      ensures this.key == key && this.stored == stored && this.reachable == reachable
    {
      this.key := key;
      this.stored := stored;
      this.reachable := reachable;
    }

    /** The reference's state as a value. */
    function State(): Cell<T>
      reads this
    {
      Cell(stored, reachable)
    }

    /** Reads the held value, if any. */
    method Load() returns (r: Result<Option<T>, PersistenceError>)
      ensures r.Success? <==> reachable
      ensures r.Success? ==> r.value == stored
      ensures r.Failure? ==> r.error == PersistenceError(key)
    {
      if reachable {
        r := Success(stored);
      } else {
        r := Failure(PersistenceError(key));
      }
    }

    /** Overwrites the held value with `v`. */
    method Store(v: T) returns (o: Outcome<PersistenceError>)
      modifies this`stored
      ensures State() == Written(old(State()), v)
      ensures o == if reachable then Pass else Fail(PersistenceError(key))
    {
      if reachable {
        stored := Some(v);
        o := Pass;
      } else {
        o := Fail(PersistenceError(key));
      }
    }

    /** Stores `v` only when nothing is held; returns the value held
        afterwards. */
    method PutIfAbsent(v: T) returns (r: Result<T, PersistenceError>)
      modifies this`stored
      ensures State() == Kept(old(State()), v)
      ensures r == if reachable then Success(Present(old(State()), v)) else Failure(PersistenceError(key))
    {
      if !reachable {
        r := Failure(PersistenceError(key));
      } else if stored.Some? {
        r := Success(stored.value);
      } else {
        stored := Some(v);
        r := Success(v);
      }
    }
  }
}
