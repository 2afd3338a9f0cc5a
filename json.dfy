/**
 * Decoded JSON documents and the rules by which Go's decoders
 * (encoding/json into a struct, and mapstructure from a decoded map) fill a
 * typed field from them. Turning text into a document is done by a library
 * the model does not re-implement: it is the parameter `Decoder`.
 */
module Json {
  import opened Wrappers
  import opened Errors

  datatype Json =
    | JNull
    | JBool(b: bool)
    | JNumber(n: int)
    | JString(s: string)
    | JArray(items: seq<Json>)
    | JObject(members: map<string, Json>)

  /** encoding/json's parser: `None` when the text is not well-formed JSON. */
  type Decoder = string -> Option<Json>

  /** The value a struct field reads from an object; an absent member reads as null (the field keeps its zero value). */
  function Member(v: Json, key: string): (r: Json)
    ensures v.JObject? && key in v.members ==> r == v.members[key]
    ensures !(v.JObject? && key in v.members) ==> r == JNull
  {
    if v.JObject? && key in v.members then v.members[key] else JNull
  }

  /** A document that can fill a struct: an object, or null (which leaves the struct zero). */
  predicate IsStructLike(v: Json)
  {
    v.JObject? || v.JNull?
  }

  /** Filling a string field: a string is taken, null keeps "", any other value is a type error. */
  function DecodeString(v: Json, field: string): (r: Result<string, Error>)
    ensures r.Success? <==> (v.JString? || v.JNull?)
    ensures v.JString? ==> r == Success(v.s)
    ensures v.JNull? ==> r == Success("")
    ensures r.Failure? ==> r.error == JsonType(field)
  {
    match v
    case JString(s) => Success(s)
    case JNull => Success("")
    case _ => Failure(JsonType(field))
  }

  /** Filling a bool field: a boolean is taken, null keeps false, anything else is a type error. */
  function DecodeBool(v: Json, field: string): (r: Result<bool, Error>)
    ensures r.Success? <==> (v.JBool? || v.JNull?)
    ensures v.JBool? ==> r == Success(v.b)
    ensures v.JNull? ==> r == Success(false)
  {
    match v
    case JBool(b) => Success(b)
    case JNull => Success(false)
    case _ => Failure(JsonType(field))
  }

  /** Filling an int field: a number is taken, null keeps 0, anything else is a type error. */
  function DecodeInt(v: Json, field: string): (r: Result<int, Error>)
    ensures r.Success? <==> (v.JNumber? || v.JNull?)
    ensures v.JNumber? ==> r == Success(v.n)
    ensures v.JNull? ==> r == Success(0)
  {
    match v
    case JNumber(n) => Success(n)
    case JNull => Success(0)
    case _ => Failure(JsonType(field))
  }

  /** Filling a `[]string` field element by element. */
  function DecodeEach(items: seq<Json>, field: string): (r: Result<seq<string>, Error>)
    ensures r.Success? <==> forall i :: 0 <= i < |items| ==> DecodeString(items[i], field).Success?
    ensures r.Success? ==> |r.value| == |items|
    ensures r.Success? ==> forall i :: 0 <= i < |items| ==> DecodeString(items[i], field) == Success(r.value[i])
  {
    if items == [] then Success([])
    else
      match (DecodeString(items[0], field), DecodeEach(items[1..], field))
      case (Success(x), Success(xs)) => Success([x] + xs)
      case (Failure(e), _) => Failure(e)
      case (_, Failure(e)) => Failure(e)
  }

  /** Filling a `[]string` field: an array of strings (null elements read as ""), or null for the empty slice. */
  function DecodeStrings(v: Json, field: string): (r: Result<seq<string>, Error>)
    ensures v.JNull? ==> r == Success([])
    ensures !v.JNull? && !v.JArray? ==> r.Failure?
    ensures v.JArray? ==> r == DecodeEach(v.items, field)
  {
    match v
    case JNull => Success([])
    case JArray(items) => DecodeEach(items, field)
    case _ => Failure(JsonType(field))
  }

  /** The document encoding/json writes for a `[]string`: an array of strings. */
  function EncodeStrings(xs: seq<string>): Json
  {
    JArray(seq(|xs|, i requires 0 <= i < |xs| => JString(xs[i])))
  }

  /** Decoding a `[]string` field from its encoding gives back the strings, in order. */
  lemma DecodeStringsEncode(xs: seq<string>, field: string)
    ensures DecodeStrings(EncodeStrings(xs), field) == Success(xs)
  {
    var r := DecodeStrings(EncodeStrings(xs), field);
    assert r.Success?;
    assert r.value == xs;
  }

  /**
   * A struct field reads a member that is absent exactly as it reads a
   * member set to null: both leave the field at its zero value.
   */
  lemma AbsentReadsAsNull(m: map<string, Json>, key: string, k: string)
    requires key !in m
    ensures Member(JObject(m[key := JNull]), k) == Member(JObject(m), k)
  {
  }
}
