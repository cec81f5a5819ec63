/**
 * The Foundation-level values the library works with: JSON values as the
 * platform JSON decoder sees them, the errors of keyed decoding, and stand-ins
 * for URL, Date and Locale.
 */
module Coding {
  import opened Wrappers

  /** A JSON value. Numbers are integers: floating point is not modelled. */
  datatype Json =
    | Null
    | Bool(b: bool)
    | Number(n: int)
    | Str(s: string)
    | Array(items: seq<Json>)
    | Object(fields: map<string, Json>)

  /** Why a keyed decode threw. */
  datatype DecodingError =
    | NotAnObject                // a keyed container was asked of a value that is not an object
    | KeyNotFound(key: string)   // `decode(_:forKey:)` on a key that is absent
    | ValueNotFound(key: string) // a non-optional value is JSON null
    | Mismatch(key: string)      // the value has the wrong type or is out of range

  /** A URL, kept as its text: URL parsing is foreign. */
  datatype Url = Url(text: string)

  /** A point in time; how dates are decoded is the decoder's configuration. */
  datatype Date = Date(instant: int)

  /** A locale, kept as its identifier. */
  datatype Locale = Locale(identifier: string)

  /** Swift's `Int` on the 64-bit platforms the package targets. */
  const INT_MIN: int := -0x8000_0000_0000_0000
  const INT_MAX: int := 0x7FFF_FFFF_FFFF_FFFF
  type Int64 = x: int | INT_MIN <= x <= INT_MAX

  function AsString(v: Json): Option<string> {
    if v.Str? then Some(v.s) else None
  }

  function AsInt(v: Json): Option<Int64> {
    if v.Number? && INT_MIN <= v.n <= INT_MAX then Some(v.n) else None
  }

  /** The JSON written by `encode(_:forKey:)` for an optional string: null when absent. */
  function NullableString(s: Option<string>): Json {
    if s.Some? then Str(s.value) else Null
  }

  /**
   * `container.decode(T.self, forKey: key)` for a non-optional `T` whose
   * decoding from a non-null JSON value is `decode`.
   */
  function DecodeRequired<T>(fields: map<string, Json>, key: string, decode: Json -> Option<T>): (r: Result<T, DecodingError>)
    ensures r.Success? <==> key in fields && !fields[key].Null? && decode(fields[key]).Some?
    ensures r.Success? ==> r.value == decode(fields[key]).value
    ensures key !in fields ==> r == Failure(KeyNotFound(key))
  {
    if key !in fields then Failure(KeyNotFound(key))
    else if fields[key].Null? then Failure(ValueNotFound(key))
    else match decode(fields[key])
      case Some(x) => Success(x)
      case None => Failure(Mismatch(key))
  }

  /**
   * `container.decode(T?.self, forKey: key)`: the key must be present (this is
   * not `decodeIfPresent`); JSON null gives `nil`.
   */
  function DecodeNullable<T>(fields: map<string, Json>, key: string, decode: Json -> Option<T>): (r: Result<Option<T>, DecodingError>)
    ensures r.Success? <==> key in fields && (fields[key].Null? || decode(fields[key]).Some?)
    ensures r.Success? ==> (r.value.None? <==> fields[key].Null?)
    ensures r.Success? && r.value.Some? ==> r.value.value == decode(fields[key]).value
    ensures key !in fields ==> r == Failure(KeyNotFound(key))
  {
    if key !in fields then Failure(KeyNotFound(key))
    else if fields[key].Null? then Success(None)
    else match decode(fields[key])
      case Some(x) => Success(Some(x))
      case None => Failure(Mismatch(key))
  }
}
