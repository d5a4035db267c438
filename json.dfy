/** The JSON values the bot sends: strings and objects whose members keep their written order.
    Members whose value is `undefined` are dropped, as `JSON.stringify` drops them. */
module Json {
  import opened Wrappers
  import Assoc

  datatype Json = JString(s: string) | JObject(members: seq<(string, Json)>)

  /** The member names of an object, in order (empty for a string). */
  function Keys(j: Json): seq<string>
  {
    match j
    case JString(_) => []
    case JObject(ms) => Names(ms)
  }

  function Names(ms: seq<(string, Json)>): (r: seq<string>)
    ensures |r| == |ms|
    ensures forall i :: 0 <= i < |r| ==> r[i] == ms[i].0
  {
    if ms == [] then [] else [ms[0].0] + Names(ms[1..])
  }

  /** `j[key]` for an object, `None` for a missing member or a string. */
  function Field(j: Json, key: string): Option<Json>
  {
    match j
    case JString(_) => None
    case JObject(ms) => Assoc.Lookup(ms, key)
  }

  /** A member `key: x` for a value that may be `undefined`. */
  function OptionalMember(key: string, x: Option<string>): seq<(string, Json)>
  {
    match x
    case None => []
    case Some(v) => [(key, JString(v))]
  }
}
