/** Attribute key/value pairs attached to every measurement, and the semantic-convention keys used. */
module Attribute {

  datatype Value = StringValue(s: string) | IntValue(i: int)

  datatype KeyValue = KeyValue(key: string, value: Value)

  /** `attribute.String(k, v)` and `<key>.String(v)` */
  function String(key: string, v: string): KeyValue { KeyValue(key, StringValue(v)) }

  /** `<key>.Int(v)` */
  function Int(key: string, v: int): KeyValue { KeyValue(key, IntValue(v)) }

  const HttpMethodKey: string := "http.method"
  const HttpHostKey: string := "http.host"
  const HttpTargetKey: string := "http.target"
  const HttpStatusCodeKey: string := "http.status_code"

  predicate HasKey(attrs: seq<KeyValue>, key: string)
  {
    exists i :: 0 <= i < |attrs| && attrs[i].key == key
  }

  predicate DistinctKeys(attrs: seq<KeyValue>)
  {
    forall i, j :: 0 <= i < j < |attrs| ==> attrs[i].key != attrs[j].key
  }
}
