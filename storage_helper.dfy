/**
 * The key/value store behind the app's persisted state: one shared map from
 * keys to timestamped records. The JSON encoding of a record is taken to
 * round-trip, so a record is kept as the value itself; `Date.now()` is passed
 * in as `now`.
 */
module StorageHelper {
  import opened Wrappers

  /** A stored record: the value and the time it was written. */
  datatype Entry<V> = Entry(value: V, timestamp: int)

  /** What `getItem` reads from a given map: the value only, `None` for null. */
  function Lookup<V>(entries: map<string, Entry<V>>, key: string): (r: Option<V>)
    ensures r.Some? <==> key in entries
    ensures r.Some? ==> r.value == entries[key].value
  {
    if key in entries then Some(entries[key].value) else None
  }

  /** The map `setItem` leaves: `key` overwritten when the value could be encoded. */
  function Set<V>(entries: map<string, Entry<V>>, key: string, value: V, now: int, encodable: bool): map<string, Entry<V>> {
    if encodable then entries[key := Entry(value, now)] else entries
  }

  /** The map `removeItem` leaves. */
  function Remove<V>(entries: map<string, Entry<V>>, key: string): map<string, Entry<V>> {
    entries - {key}
  }

  class KeyValueStore<V> {
    /** The shared `storage` map. */
    var entries: map<string, Entry<V>>

    constructor ()
      ensures entries == map[]
    {
      entries := map[];
    }

    /**
     * `setItem`: stores the value with its timestamp, overwriting the key.
     * When encoding throws (`encodable` false), the error is swallowed and
     * nothing changes.
     */
    method SetItem(key: string, value: V, now: int, encodable: bool)
      modifies this
      ensures entries == Set(old(entries), key, value, now, encodable)
      ensures encodable ==> key in entries && entries[key] == Entry(value, now)
      ensures forall k :: k != key ==> Lookup(entries, k) == Lookup(old(entries), k)
    {
      if encodable {
        entries := entries[key := Entry(value, now)];
      }
    }

    /** `getItem`: the stored value, or `None` (null) when the key is absent. */
    method GetItem(key: string) returns (r: Option<V>)
      ensures r == Lookup(entries, key)
    {
      if key in entries {
        r := Some(entries[key].value);
      } else {
        r := None;
      }
    }

    /** `removeItem`: deletes the key, if present; every other key is kept. */
    method RemoveItem(key: string)
      modifies this
      ensures entries == Remove(old(entries), key)
      ensures key !in entries
      ensures forall k :: k != key ==> Lookup(entries, k) == Lookup(old(entries), k)
    {
      entries := entries - {key};
    }
  }

  /** Reading a key right after writing it gives back the value written. */
  lemma GetAfterSet<V>(m: map<string, Entry<V>>, key: string, value: V, now: int)
    ensures Lookup(Set(m, key, value, now, true), key) == Some(value)
  {
  }

  /** A write changes what is read at its own key only. */
  lemma SetFramesOtherKeys<V>(m: map<string, Entry<V>>, key: string, value: V, now: int, encodable: bool, other: string)
    requires other != key
    ensures Lookup(Set(m, key, value, now, encodable), other) == Lookup(m, other)
  {
  }

  /** A second write to a key hides the first entirely. */
  lemma SetOverwrites<V>(m: map<string, Entry<V>>, key: string, v1: V, t1: int, v2: V, t2: int)
    ensures Set(Set(m, key, v1, t1, true), key, v2, t2, true) == Set(m, key, v2, t2, true)
  {
  }

  /** The timestamp never reaches a reader: writes differing only in time read the same. */
  lemma TimestampNotObservable<V>(m: map<string, Entry<V>>, key: string, value: V, t1: int, t2: int, k: string)
    ensures Lookup(Set(m, key, value, t1, true), k) == Lookup(Set(m, key, value, t2, true), k)
  {
  }

  /** After removal a key reads as null; removing is idempotent and frames the other keys. */
  lemma RemoveProperties<V>(m: map<string, Entry<V>>, key: string, other: string)
    ensures Lookup(Remove(m, key), key) == None
    ensures Remove(Remove(m, key), key) == Remove(m, key)
    ensures key !in m ==> Remove(m, key) == m
    ensures other != key ==> Lookup(Remove(m, key), other) == Lookup(m, other)
  {
  }

  /** A store that was never written reads null at every key. */
  lemma EmptyStoreReadsNull<V>(key: string)
    ensures Lookup<V>(map[], key) == None
  {
  }
}
