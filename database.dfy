/**
  The Database interface of xrate/xrate.go (Get a table by key, Set raw bytes
  under a key), backed here by a map from key to stored bytes. Get decodes
  the stored bytes with the same JSON decoding the service uses, as the
  LevelDB implementation does, and fails with ErrNotFound on a missing key.
*/
module Database {
  import opened Wrappers
  import opened GoBytes
  import opened CacheKeys
  import opened Tables

  /** Decoding bytes into a provider table: a partial function this model does not define. */
  type Unmarshal = Bytes -> Option<FixerRates>

  datatype GetError = ErrNotFound | ErrUnmarshal

  /** What Get answers for `key` when the store holds `entries`. */
  function Lookup(entries: map<Key, Bytes>, unmarshal: Unmarshal, key: Key): (r: Result<FixerRates, GetError>)
    ensures key !in entries ==> r == Failure(ErrNotFound)
    ensures r.Success? <==> key in entries && unmarshal(entries[key]).Some?
    ensures r.Success? ==> unmarshal(entries[key]) == Some(r.value)
  {
    if key !in entries then Failure(ErrNotFound)
    else match unmarshal(entries[key])
      case None => Failure(ErrUnmarshal)
      case Some(fr) => Success(fr)
  }

  class Store {
    var entries: map<Key, Bytes>
    const unmarshal: Unmarshal

    constructor (entries: map<Key, Bytes>, unmarshal: Unmarshal)
      ensures this.entries == entries && this.unmarshal == unmarshal
    {
      this.entries := entries;
      this.unmarshal := unmarshal;
    }

    /** Get retrieves the table stored under key; the store is not changed. */
    method Get(key: Key) returns (r: Result<FixerRates, GetError>)
      ensures r == Lookup(entries, unmarshal, key)
    {
      if key !in entries {
        return Failure(ErrNotFound);
      }
      var fr := unmarshal(entries[key]);
      if fr.None? {
        return Failure(ErrUnmarshal);
      }
      return Success(fr.value);
    }

    /** Set puts the bytes under key, replacing what was there; no other key changes. */
    method Set(key: Key, value: Bytes)
      modifies this
      ensures entries == old(entries)[key := value]
    {
      entries := entries[key := value];
    }
  }
}
