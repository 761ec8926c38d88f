/**
 * The values `json.loads` produces, as far as the modelled code inspects them.
 * Decoding itself is not modelled: callers receive a decoder as a parameter.
 */
module JsonValue {
  import opened Common

  /**
   * A decoded JSON document. An object keeps its members in document order,
   * as the pairs the decoder read; repeated keys are kept and resolved the way
   * a Python dict built from them would be.
   */
  datatype Json =
    | JNull
    | JBool(b: bool)
    | JNumber(n: real)
    | JString(s: string)
    | JArray(items: seq<Json>)
    | JObject(members: seq<(string, Json)>)

  /** Python's `bool(v)` of the decoded value: `None`, `False`, zero and empty containers are false. */
  predicate Truthy(v: Json) {
    match v
    case JNull => false
    case JBool(b) => b
    case JNumber(n) => n != 0.0
    case JString(s) => s != ""
    case JArray(items) => items != []
    case JObject(members) => members != []
  }

  /** The value a dict built from `members` holds under `key`: the last pair with that key wins. */
  function LastBinding(members: seq<(string, Json)>, key: string): (r: Option<Json>)
    ensures r.None? <==> forall i :: 0 <= i < |members| ==> members[i].0 != key
    ensures r.Some? ==> exists i :: 0 <= i < |members| && members[i] == (key, r.value)
                                    && forall j :: i < j < |members| ==> members[j].0 != key
  {
    if members == [] then None
    else if members[|members| - 1].0 == key then Some(members[|members| - 1].1)
    else LastBinding(members[..|members| - 1], key)
  }

  /** The keys of a dict built from `members`, in the order Python iterates them: first occurrence. */
  function Keys(members: seq<(string, Json)>): (ks: seq<string>)
    ensures forall i, j :: 0 <= i < j < |ks| ==> ks[i] != ks[j]
    ensures forall k :: k in ks <==> exists i :: 0 <= i < |members| && members[i].0 == k
  {
    if members == [] then []
    else
      var earlier := Keys(members[..|members| - 1]);
      var k := members[|members| - 1].0;
      if k in earlier then earlier else earlier + [k]
  }

  /** Why `value[key]` raises in Python. */
  datatype LookupError = KeyMissing(key: string) | NotSubscriptable

  /** Python's `value[key]` with a string key. */
  function Subscript(value: Json, key: string): Result<Json, LookupError>
  {
    match value
    case JObject(members) =>
      (match LastBinding(members, key)
       case Some(v) => Success(v)
       case None => Failure(KeyMissing(key)))
    case _ => Failure(NotSubscriptable)
  }

  /**
   * The elements a Python `for` loop visits in the decoded value: the items of
   * a list, the one-character strings of a string, the keys of a dict; `None`
   * when the value is not iterable (a number, a boolean or `None`).
   */
  function Iterate(value: Json): Option<seq<Json>>
  {
    match value
    case JArray(items) => Some(items)
    case JString(s) => Some(seq(|s|, i requires 0 <= i < |s| => JString([s[i]])))
    case JObject(members) =>
      var ks := Keys(members);
      Some(seq(|ks|, i requires 0 <= i < |ks| => JString(ks[i])))
    case _ => None
  }
}
