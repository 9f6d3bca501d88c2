/** `UserDefaults` as a key-value store of bytes, and JSON as an encode/decode pair. */
module Persistence {
  import opened Common

  /** The defaults database: values stored under string keys. */
  type Store = map<string, Bytes>

  /** `JSONEncoder().encode` and `JSONDecoder().decode` for one type; either may fail (`try?`). */
  datatype Codec<!T> = Codec(encode: T -> Option<Bytes>, decode: Bytes -> Option<T>)

  /** Decoding what was encoded gives the value back. */
  ghost predicate RoundTrips<T(!new)>(c: Codec<T>)
  {
    forall x: T {:trigger c.encode(x)} :: c.encode(x).Some? ==> c.decode(c.encode(x).value) == Some(x)
  }

  /** `data(forKey:)` followed by `try? decode`: a value only when the key is present and its bytes decode. */
  function Read<T>(store: Store, key: string, c: Codec<T>): (r: Option<T>)
    ensures r.Some? <==> key in store && c.decode(store[key]).Some?
    ensures r.Some? ==> c.decode(store[key]) == r
  {
    if key in store then c.decode(store[key]) else None
  }

  /** `if let v = try? encode(x) { set(v, forKey:) }`: the store is left alone when encoding fails. */
  function Write<T>(store: Store, key: string, c: Codec<T>, x: T): (r: Store)
    ensures c.encode(x).Some? ==> key in r && r[key] == c.encode(x).value
    ensures c.encode(x).None? ==> r == store
    ensures r.Keys == store.Keys + (if c.encode(x).Some? then {key} else {})
    ensures forall k :: k in store && k != key ==> k in r && r[k] == store[k]
  {
    match c.encode(x)
    case None => store
    case Some(bytes) => store[key := bytes]
  }

  /** What was written under a key reads back, for a codec that round-trips. */
  lemma WriteThenRead<T(!new)>(store: Store, key: string, c: Codec<T>, x: T)
    requires RoundTrips(c) && c.encode(x).Some?
    ensures Read(Write(store, key, c, x), key, c) == Some(x)
  {
  }

  /** Writing under one key does not change what another key reads. */
  lemma WriteOtherKey<T, U>(store: Store, key: string, c: Codec<T>, x: T, other: string, d: Codec<U>)
    requires other != key
    ensures Read(Write(store, key, c, x), other, d) == Read(store, other, d)
  {
  }
}
