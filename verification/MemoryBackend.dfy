/** The in-memory value backend (`bitboxsync/memory_backend.go`). Each method runs under the backend's
    mutex, so it is one atomic step. */
module MemoryBackend {
  import opened Prelude
  import opened Ordering

  class MemoryValueBackend<T(==)> {
    var values: map<GoString, T>

    /** The stored value, if any. */
    function Lookup(key: GoString): Option<T>
      reads this
    {
      if key in values then Some(values[key]) else None
    }

    constructor (initial: map<GoString, T>)
      ensures values == initial
    {
      values := initial;
    }

    /** Every stored key once, in ascending order. */
    method Keys() returns (keys: seq<GoString>)
      ensures Ascending(keys) && Elements(keys) == values.Keys
    {
      var unsorted, todo := [], values.Keys;
      while todo != {}
        invariant todo <= values.Keys && Elements(unsorted) == values.Keys - todo
      {
        var key :| key in todo;
        todo := todo - {key};
        ElementsOfConcat(unsorted, [key]);
        unsorted := unsorted + [key];
      }
      keys := UniqueSortedStrings(unsorted);
    }

    method Snapshot() returns (copy: map<GoString, T>)
      ensures forall key :: (key in copy <==> Lookup(key).Some?) && (key in copy ==> Lookup(key) == Some(copy[key]))
    {
      copy := values;
    }

    method Get(key: GoString) returns (r: Option<T>)
      ensures r == Lookup(key)
    {
      if key !in values {
        return None;
      }
      r := Some(values[key]);
    }

    method Set(key: GoString, value: T)
      modifies this
      ensures Lookup(key) == Some(value)
      ensures forall k :: k != key ==> Lookup(k) == old(Lookup(k))
    {
      values := values[key := value];
    }

    /** Replaces the value exactly if the caller's last read is still what is stored: the compare-and-set
        the engine relies on. Nothing else changes, and nothing at all on a refusal. */
    method SetIfCurrent(key: GoString, current: T, currentFound: bool, value: T) returns (replaced: bool)
      modifies this
      ensures replaced <==> old(Lookup(key)) == if currentFound then Some(current) else None
      ensures Lookup(key) == if replaced then Some(value) else old(Lookup(key))
      ensures forall k :: k != key ==> Lookup(k) == old(Lookup(k))
    {
      var ok := key in values;
      if ok != currentFound {
        return false;
      }
      if currentFound && values[key] != current {
        return false;
      }
      values := values[key := value];
      replaced := true;
    }
  }
}
