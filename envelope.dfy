/**
 * The entry envelope (`Data` in src/index.ts), the parsed JSON a binding caches,
 * and the host's JSON layer that turns envelopes into stored strings and back.
 */
module Envelope {
  import opened Wrappers
  import opened Codec

  /** What a binding writes: the encoded payload and, under a TTL, an absolute expiry time. */
  datatype Data = Data(value: string, expires: Option<int>) {
    /** The envelope as a JSON value: an object, hence truthy. */
    function AsJson(): (j: Json)
      ensures j.Entry? && j.value == Some(value) && j.expires == expires
    {
      Entry(Some(value), expires)
    }
  }

  /**
   * A parsed JSON value, reduced to what the binding reads from it. `Falsy` is
   * null, false, 0 or the empty string (`!value` holds). Every truthy value is an
   * `Entry` holding its `value` field when that is a string and its `expires`
   * field when that is a number; a number, a string or an object without those
   * fields is an `Entry(None, None)`.
   */
  datatype Json = Falsy | Entry(value: Option<string>, expires: Option<int>)

  /**
   * The host's `JSON.stringify` on envelopes and `JSON.parse` (`None` when it
   * throws). Nothing is assumed of them beyond `Valid`.
   */
  datatype Format = Format(stringify: Data -> string, parse: string -> Option<Json>) {
    /** The facts of JSON the engine relies on. */
    ghost predicate Valid() {
      && parse("null") == Some(Falsy)
      && parse("") == None
      && forall d: Data :: parse(stringify(d)) == Some(d.AsJson())
    }
  }

  /** A serialised envelope is never the empty string, which JSON cannot parse. */
  lemma StringifyNonEmpty(f: Format, d: Data)
    requires f.Valid()
    ensures f.stringify(d) != ""
  {
  }

  /**
   * The envelope `wrappedSet(v)` builds at time `now`: the encoded value, and an
   * expiry `now + ttl` only when a TTL is set (0 stands for none) and `v` does
   * not encode like the initial value.
   */
  function Next<T>(s: Serializer<T>, initial: T, ttl: int, v: T, now: int): (d: Data)
    ensures d.value == s.encode(v)
    ensures d.expires.Some? <==> ttl != 0 && s.encode(v) != s.encode(initial)
    ensures d.expires.Some? ==> d.expires.value == now + ttl
    ensures s.encode(v) == s.encode(initial) ==> d == Data(s.encode(initial), None)
  {
    var encoded := s.encode(v);
    if ttl != 0 && s.encode(initial) != encoded then Data(encoded, Some(now + ttl))
    else Data(encoded, None)
  }

  /** `value?.expires && now > value.expires`: an expiry of 0 or none never passes. */
  predicate Expired(j: Json, now: int) {
    j.Entry? && j.expires.Some? && j.expires.value != 0 && now > j.expires.value
  }
}
