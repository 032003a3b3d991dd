/**
 * JSON values as the Qt JSON classes hold them (QJsonValue, QJsonObject).
 * A lookup of a missing key yields Undefined, and storing Undefined under a
 * key removes that key, which is how QJsonObject behaves.
 * Numbers are integers here: fractional numbers are not part of this model.
 */
module Json {

  datatype Value =
    | Undefined
    | Null
    | Bool(b: bool)
    | Number(n: int)
    | Str(s: string)
    | Array(items: seq<Value>)
    | Object(fields: map<string, Value>)

  type Object = map<string, Value>

  const IntMin: int := -0x8000_0000
  const IntMax: int := 0x7FFF_FFFF

  /** QJsonObject::value: the stored value, or Undefined for a missing key. */
  function Get(o: Object, key: string): (v: Value)
    ensures key in o ==> v == o[key]
    ensures key !in o ==> v == Undefined
  {
    if key in o then o[key] else Undefined
  }

  /** QJsonObject insertion: an Undefined value removes the key. */
  function Put(o: Object, key: string, v: Value): (r: Object)
    ensures Get(r, key) == v
    ensures forall k :: k in o && k != key ==> k in r && r[k] == o[k]
    ensures forall k :: k in r ==> k == key || k in o
    ensures key in r <==> v != Undefined
  {
    if v == Undefined then o - {key} else o[key := v]
  }

  /** QJsonValue::toString: the string held, or the empty string. */
  function ToStr(v: Value): string
  {
    if v.Str? then v.s else ""
  }

  /** QJsonValue::toInt: a number that fits a 32-bit int, otherwise 0. */
  function ToInt(v: Value): (r: int)
    ensures IntMin <= r <= IntMax
    ensures v.Number? && IntMin <= v.n <= IntMax ==> r == v.n
  {
    if v.Number? && IntMin <= v.n <= IntMax then v.n else 0
  }

  /** QJsonArray::fromStringList and the append loops that build string arrays. */
  function StringArray(xs: seq<string>): (r: Value)
    ensures r.Array? && |r.items| == |xs|
    ensures forall i :: 0 <= i < |xs| ==> r.items[i] == Str(xs[i])
  {
    Array(seq(|xs|, i requires 0 <= i < |xs| => Str(xs[i])))
  }
}
