/** The JSON values that the client sends and receives. A Python `dict`
    with string keys is a Dafny `map` (its insertion order is not kept). */
module Dicts {

  datatype Option<+T> = None | Some(value: T)

  /** JSON as produced by `json.loads` and consumed by `json.dumps`
      (numbers are restricted to integers). */
  datatype Json =
    | JNull
    | JBool(b: bool)
    | JNumber(n: int)
    | JString(s: string)
    | JArray(items: seq<Json>)
    | JObject(members: map<string, Json>)

  /** A Python list of strings as a JSON array. */
  function StringArray(xs: seq<string>): (j: Json)
    ensures j.JArray? && |j.items| == |xs|
    ensures forall i :: 0 <= i < |xs| ==> j.items[i] == JString(xs[i])
  {
    JArray(seq(|xs|, i requires 0 <= i < |xs| => JString(xs[i])))
  }

  /** Reads a JSON array of strings back as a list; None for anything else. */
  function ArrayStrings(items: seq<Json>): (r: Option<seq<string>>)
    ensures r.Some? ==> |r.value| == |items|
  {
    if items == [] then Some([])
    else if !items[0].JString? then None
    else match ArrayStrings(items[1..])
      case None => None
      case Some(rest) => Some([items[0].s] + rest)
  }

  /** A list of strings survives being sent as a JSON array. */
  lemma {:induction false} StringArrayRoundTrip(xs: seq<string>)
    ensures ArrayStrings(StringArray(xs).items) == Some(xs)
  {
    if xs != [] {
      var items := StringArray(xs).items;
      StringArrayRoundTrip(xs[1..]);
      assert items[1..] == StringArray(xs[1..]).items;
      assert items[0] == JString(xs[0]);
      assert xs == [xs[0]] + xs[1..];
    }
  }

  /** The strings sent under `key` in a JSON object payload. */
  function PayloadStrings(body: Option<Json>, key: string): Option<seq<string>>
  {
    if body.Some? && body.value.JObject? && key in body.value.members
       && body.value.members[key].JArray?
    then ArrayStrings(body.value.members[key].items)
    else None
  }
}
