/** Decoded JSON values, as both halves of the system hold them after
    parsing: Jackson's `Object` tree on the Java side, Python's `dict`/`list`
    values on the worker. Object members keep their document order. */
module Json {
  import opened Outcomes

  datatype Json =
    | JNull
    | JBool(b: bool)
    | JNumber(n: int)
    | JString(s: string)
    | JArray(items: seq<Json>)
    | JObject(members: seq<(string, Json)>)

  /** The value of the last member named `key`, if any: Jackson and
      `json.loads` both keep the last of repeated names. */
  function Lookup(members: seq<(string, Json)>, key: string): (r: Option<Json>)
    ensures r.Some? <==> exists i :: 0 <= i < |members| && members[i].0 == key
    ensures r.Some? ==> exists i :: 0 <= i < |members| && members[i] == (key, r.value)
                                    && forall j :: i < j < |members| ==> members[j].0 != key
    decreases |members|
  {
    if |members| == 0 then None
    else
      var last := |members| - 1;
      if members[last].0 == key then Some(members[last].1)
      else
        var front := members[..last];
        var rest := Lookup(front, key);
        assert forall i :: 0 <= i < last ==> members[i] == front[i];
        if rest.Some? then
          var k :| 0 <= k < |front| && front[k] == (key, rest.value)
                   && forall j :: k < j < |front| ==> front[j].0 != key;
          assert members[k] == (key, rest.value) && forall j :: k < j < |members| ==> members[j].0 != key;
          rest
        else
          assert forall i :: 0 <= i < |members| ==> members[i].0 != key;
          rest
  }

  /** Python truthiness of a decoded value. */
  predicate Truthy(j: Json) {
    match j
    case JNull => false
    case JBool(b) => b
    case JNumber(n) => n != 0
    case JString(s) => |s| > 0
    case JArray(items) => |items| > 0
    case JObject(members) => |members| > 0
  }
}
