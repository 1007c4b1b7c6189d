/** The API-key gates of middleware/keyAuth.js. Header and configured keys are
    byte strings (their UTF-8 encodings), `None` when the header or the
    environment variable is not set. */
module KeyAuth {
  import opened Js

  newtype byte = x: int | 0 <= x < 256

  type Bytes = seq<byte>

  /** What a gate does with a request: pass it on, or answer 403 "Forbidden". */
  datatype Gate = Next | Forbidden

  /** `crypto.timingSafeEqual` on buffers of equal length; only its result is
      modelled. */
  function TimingSafeEqual(a: Bytes, b: Bytes): (r: bool)
    requires |a| == |b|
    ensures r <==> forall i :: 0 <= i < |a| ==> a[i] == b[i]
  {
    a == b
  }

  /** `safeCompare(a, b)`: true exactly when both keys are present, non-empty
      and byte-for-byte equal. */
  function SafeCompare(a: Option<Bytes>, b: Option<Bytes>): (r: bool)
    ensures r <==> a.Some? && b.Some? && a.value != [] && a.value == b.value
  {
    if a.None? || b.None? || a.value == [] || b.value == [] then false
    else if |a.value| != |b.value| then false
    else TimingSafeEqual(a.value, b.value)
  }

  /** The comparison does not depend on the order of its arguments. */
  lemma SafeCompareSymmetric(a: Option<Bytes>, b: Option<Bytes>)
    ensures SafeCompare(a, b) == SafeCompare(b, a)
  {
  }

  /** Keys of different lengths never match. */
  lemma SafeCompareLengths(a: Bytes, b: Bytes)
    requires |a| != |b|
    ensures !SafeCompare(Some(a), Some(b))
  {
  }

  /** `accessKeyAuth`: the `x-access-key` header against `ACCESS_API_KEY`. */
  function AccessKeyAuth(header: Option<Bytes>, configured: Option<Bytes>): (g: Gate)
    ensures g == Next <==> header.Some? && header.value != [] && header == configured
  {
    if !SafeCompare(header, configured) then Forbidden else Next
  }

  /** `adminKeyAuth`: the `x-admin-key` header against `ADMIN_API_KEY`. */
  function AdminKeyAuth(header: Option<Bytes>, configured: Option<Bytes>): (g: Gate)
    ensures g == Next <==> header.Some? && header.value != [] && header == configured
  {
    if !SafeCompare(header, configured) then Forbidden else Next
  }

  /** With the key unset or empty, every request is refused by both gates. */
  lemma UnsetKeyRejectsAll(header: Option<Bytes>, configured: Option<Bytes>)
    requires configured.None? || configured.value == []
    ensures AccessKeyAuth(header, configured) == Forbidden
    ensures AdminKeyAuth(header, configured) == Forbidden
  {
  }
}
