/**
 * The payload codec of a binding (`Serializer<T>` in src/index.ts): `encode`
 * is total, `decode` may throw, which is modelled by returning `None`.
 */
module Codec {
  import opened Wrappers

  datatype Serializer<!T> = Serializer(encode: T -> string, decode: string -> Option<T>)

  /** `decode` undoes `encode` on `v`, as the default JSON codec does. */
  ghost predicate RoundTrips<T>(s: Serializer<T>, v: T) {
    s.decode(s.encode(v)) == Some(v)
  }

  /**
   * The value a binding exposes: the decoded payload, or the initial value
   * when there is no payload or decoding it throws.
   */
  function DecodeOr<T>(s: Serializer<T>, initial: T, payload: Option<string>): (r: T)
    ensures payload.Some? && s.decode(payload.value).Some? ==> r == s.decode(payload.value).value
    ensures payload.None? || s.decode(payload.value).None? ==> r == initial
  {
    match payload
    case None => initial
    case Some(p) => s.decode(p).GetOr(initial)
  }
}
