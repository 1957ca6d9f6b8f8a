/** JSON values as they arrive in a request body (after the body parser) and
    as the client serialises its payloads, with the per-type decoders that the
    generated insert schemas apply to each column. Numbers are integers here:
    fractional numbers are not part of the model. */
module Json {
  import opened Wrappers

  datatype Json =
    | JNull
    | JBool(b: bool)
    | JNum(n: int)
    | JStr(s: string)
    | JArr(items: seq<Json>)
    | JObj(fields: map<string, Json>)

  /** `text` columns accept exactly the JSON strings. */
  function AsString(j: Json): (r: Option<string>)
    ensures r.Some? <==> j.JStr?
    ensures r.Some? ==> j == JStr(r.value)
  {
    if j.JStr? then Some(j.s) else None
  }

  /** `integer` columns accept exactly the JSON numbers. */
  function AsInt(j: Json): (r: Option<int>)
    ensures r.Some? <==> j.JNum?
    ensures r.Some? ==> j == JNum(r.value)
  {
    if j.JNum? then Some(j.n) else None
  }

  /** `boolean` columns accept exactly the JSON booleans. */
  function AsBool(j: Json): (r: Option<bool>)
    ensures r.Some? <==> j.JBool?
    ensures r.Some? ==> j == JBool(r.value)
  {
    if j.JBool? then Some(j.b) else None
  }

  predicate AllStrings(items: seq<Json>) {
    forall i :: 0 <= i < |items| ==> items[i].JStr?
  }

  /** The string-list `json` columns (platforms, goals, testStrategy,
      achievements) accept arrays of strings. */
  function AsStrings(j: Json): (r: Option<seq<string>>)
    ensures r.Some? <==> j.JArr? && AllStrings(j.items)
    ensures r.Some? ==> |r.value| == |j.items| && forall i :: 0 <= i < |j.items| ==> j.items[i] == JStr(r.value[i])
  {
    if j.JArr? && AllStrings(j.items) then
      Some(seq(|j.items|, i requires 0 <= i < |j.items| => j.items[i].s))
    else
      None
  }

  /** An untyped `json` column (performanceTargets) accepts any value. */
  function AsAny(j: Json): (r: Option<Json>)
    ensures r == Some(j)
  {
    Some(j)
  }

  /** How the client serialises a list of strings. */
  function StringsJson(xs: seq<string>): (j: Json)
    ensures j.JArr? && |j.items| == |xs|
  {
    JArr(seq(|xs|, i requires 0 <= i < |xs| => JStr(xs[i])))
  }

  lemma StringsRoundTrip(xs: seq<string>)
    ensures AsStrings(StringsJson(xs)) == Some(xs)
  {
    var r := AsStrings(StringsJson(xs));
    assert r.Some?;
    assert r.value == xs;
  }

  /** A key the schema marks as required: present, and of the column's type. */
  function Required<T>(m: map<string, Json>, key: string, decode: Json -> Option<T>): (r: Option<T>)
    ensures key !in m ==> r.None?
    ensures key in m ==> r == decode(m[key])
  {
    if key in m then decode(m[key]) else None
  }

  /** A required column under `.partial()`: the key may be absent; when present
      it must be of the column's type (null is refused). */
  function Optional<T>(m: map<string, Json>, key: string, decode: Json -> Option<T>): (r: Option<Field<T>>)
    ensures key !in m ==> r == Some(Missing)
    ensures key in m ==> (r.Some? <==> decode(m[key]).Some?)
    ensures key in m && r.Some? ==> r.value == Given(decode(m[key]).value)
  {
    if key !in m then Some(Missing)
    else match decode(m[key])
      case Some(v) => Some(Given(v))
      case None => None
  }

  /** A nullable column: the key may be absent, null, or of the column's type. */
  function Nullable<T>(m: map<string, Json>, key: string, decode: Json -> Option<T>): (r: Option<Field<Option<T>>>)
    ensures key !in m ==> r == Some(Missing)
    ensures key in m && m[key] == JNull ==> r == Some(Given(None))
    ensures key in m && m[key] != JNull ==> (r.Some? <==> decode(m[key]).Some?)
    ensures key in m && m[key] != JNull && r.Some? ==> r.value == Given(Some(decode(m[key]).value))
  {
    if key !in m then Some(Missing)
    else if m[key] == JNull then Some(Given(None))
    else match decode(m[key])
      case Some(v) => Some(Given(Some(v)))
      case None => None
  }

  /** The object a client serialises: every key whose value is `None` is
      left out. */
  function Compact(m: map<string, Option<Json>>): (r: map<string, Json>)
    ensures forall k :: k in r <==> k in m && m[k].Some?
    ensures forall k :: k in r ==> r[k] == m[k].value
  {
    map k | k in m && m[k].Some? :: m[k].value
  }

  /** A required key: always written. */
  function RequiredValue<T>(v: T, encode: T -> Json): Option<Json> {
    Some(encode(v))
  }

  /** A key of a partial payload: written only when given. */
  function OptionalValue<T>(f: Field<T>, encode: T -> Json): Option<Json> {
    match f
    case Missing => None
    case Given(v) => Some(encode(v))
  }

  /** A nullable key: left out, written as null, or written as a value. */
  function NullableValue<T>(f: Field<Option<T>>, encode: T -> Json): Option<Json> {
    match f
    case Missing => None
    case Given(None) => Some(JNull)
    case Given(Some(v)) => Some(encode(v))
  }

  /** The validator reads back a required key as the client wrote it. */
  lemma ReadRequired<T>(m: map<string, Option<Json>>, key: string, v: T, encode: T -> Json, decode: Json -> Option<T>)
    requires key in m && m[key] == RequiredValue(v, encode)
    requires decode(encode(v)) == Some(v)
    ensures Required(Compact(m), key, decode) == Some(v)
  {
  }

  /** The partial validator reads back a key as the client wrote it. */
  lemma ReadOptional<T>(m: map<string, Option<Json>>, key: string, f: Field<T>, encode: T -> Json, decode: Json -> Option<T>)
    requires key in m && m[key] == OptionalValue(f, encode)
    requires f.Given? ==> decode(encode(f.value)) == Some(f.value)
    ensures Optional(Compact(m), key, decode) == Some(f)
  {
  }

  /** The validator reads back a nullable key as the client wrote it, as long
      as a present value does not serialise to null. */
  lemma ReadNullable<T>(m: map<string, Option<Json>>, key: string, f: Field<Option<T>>, encode: T -> Json, decode: Json -> Option<T>)
    requires key in m && m[key] == NullableValue(f, encode)
    requires f.Given? && f.value.Some? ==> encode(f.value.value) != JNull && decode(encode(f.value.value)) == f.value
    ensures Nullable(Compact(m), key, decode) == Some(f)
  {
  }
}
