/**
 * The JSON documents produced by `encoding/json`, as value trees rather than text.
 * Objects are maps, so two documents that differ only in key order or layout are the
 * same value, which is how the handler tests compare them (JSONEq).
 */
module Json {

  datatype Value =
    | JNull
    | JBool(b: bool)
    | JNumber(n: int)
    | JString(str: string)
    | JArray(items: seq<Value>)
    | JObject(fields: map<string, Value>)

  /** A JSON array of JSON strings, in the order given. */
  function Strings(ss: seq<string>): (j: Value)
    ensures j.JArray? && |j.items| == |ss|
    ensures forall k :: 0 <= k < |ss| ==> j.items[k] == JString(ss[k])
  {
    JArray(seq(|ss|, k requires 0 <= k < |ss| => JString(ss[k])))
  }
}
