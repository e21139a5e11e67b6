/** Payload values that handlers hand to the JSON encoder. The encoder itself
    (a third-party library behind `jsonutil.Marshal`) is not modelled: it is
    an `Encoder` the caller supplies. */
module Json {
  import opened Wrappers
  import opened GoStd

  datatype Json =
    | JNull
    | JBool(b: bool)
    | JInt(i: int)
    | JString(s: string)
    | JArray(items: seq<Json>)
    | JObject(members: seq<(string, Json)>)

  /** jsonutil.Marshal: the encoded bytes, or the encoder's error. */
  type Encoder = Json -> Result<seq<byte>, Error>

  /** The names of an object's members, in the order they are written. */
  function MemberNames(members: seq<(string, Json)>): (names: seq<string>)
    ensures |names| == |members|
    ensures forall i :: 0 <= i < |members| ==> names[i] == members[i].0
  {
    if |members| == 0 then [] else [members[0].0] + MemberNames(members[1..])
  }

  /** The value of the first member called `name`, if any. */
  function Member(j: Json, name: string): (r: Option<Json>)
    ensures r.Some? <==> j.JObject? && name in MemberNames(j.members)
  {
    if !j.JObject? then None else MemberOf(j.members, name)
  }

  function MemberOf(members: seq<(string, Json)>, name: string): (r: Option<Json>)
    ensures r.Some? <==> name in MemberNames(members)
  {
    if |members| == 0 then None
    else if members[0].0 == name then Some(members[0].1)
    else MemberOf(members[1..], name)
  }
}
