/**
 * The key-value cache the services read through (a Redis client whose
 * package is not part of this model). Entries keep the TTL they were stored
 * with; expiry itself is not modelled. Each call receives the cache's
 * verdict as `failure`: None when the call succeeds, Some(e) when the
 * client fails with e, in which case nothing changes.
 */
module Cache {
  import opened Wrappers
  import opened Fault

  datatype Entry<V> = Entry(value: V, ttl: int)

  class Cache<V> {
    var entries: map<string, Entry<V>>

    constructor Empty()
      ensures entries == map[]
    {
      entries := map[];
    }

    /** GetStruct: the stored value on a hit; nothing on a miss or a failure. */
    method GetStruct(key: string, failure: Option<Error>) returns (r: Option<V>)
      ensures r.Some? <==> failure.None? && key in entries
      ensures r.Some? ==> r.value == entries[key].value
    {
      if failure.None? && key in entries {
        return Some(entries[key].value);
      }
      return None;
    }

    method SetStruct(key: string, value: V, ttl: int, failure: Option<Error>) returns (err: Option<Error>)
      modifies this
      ensures err == failure
      ensures failure.Some? ==> entries == old(entries)
      ensures failure.None? ==> entries == old(entries)[key := Entry(value, ttl)]
    {
      if failure.None? {
        entries := entries[key := Entry(value, ttl)];
      }
      return failure;
    }

    method Has(key: string, failure: Option<Error>) returns (r: Result<bool, Error>)
      ensures failure.Some? ==> r == Failure(failure.value)
      ensures failure.None? ==> r == Success(key in entries)
    {
      if failure.Some? {
        return Failure(failure.value);
      }
      return Success(key in entries);
    }

    method Delete(key: string, failure: Option<Error>) returns (err: Option<Error>)
      modifies this
      ensures err == failure
      ensures failure.Some? ==> entries == old(entries)
      ensures failure.None? ==> entries == old(entries) - {key}
    {
      if failure.None? {
        entries := entries - {key};
      }
      return failure;
    }
  }
}
