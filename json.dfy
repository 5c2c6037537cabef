/**
 * JSON values as the JSON parser hands them to the client. An object keeps its
 * members in the parser's iteration order, which is the order in which the
 * client walks a `continue` object.
 */
module JsonValue {
  import opened Wrappers

  datatype Json =
    | Null
    | Bool(b: bool)
    | Number(n: int)
    | Str(s: string)
    | Arr(items: seq<Json>)
    | Obj(members: seq<(string, Json)>)

  /** The parser never produces an object with two members of the same name. */
  predicate UniqueKeys(members: seq<(string, Json)>) {
    forall i, j :: 0 <= i < j < |members| ==> members[i].0 != members[j].0
  }

  predicate HasKey(members: seq<(string, Json)>, key: string) {
    exists i :: 0 <= i < |members| && members[i].0 == key
  }

  /** The value of the first member called `key`. */
  function Lookup(members: seq<(string, Json)>, key: string): (r: Option<Json>)
    ensures r.Some? <==> HasKey(members, key)
    ensures r.Some? ==> exists i :: 0 <= i < |members| && members[i] == (key, r.value)
  {
    if members == [] then None
    else if members[0].0 == key then Some(members[0].1)
    else
      var r := Lookup(members[1..], key);
      assert forall i :: 0 <= i < |members| - 1 ==> members[1..][i] == members[i + 1];
      r
  }

  /** In an object with unique names, every member is found under its own name. */
  lemma {:induction false} LookupMember(members: seq<(string, Json)>, i: nat)
    requires UniqueKeys(members)
    requires i < |members|
    ensures Lookup(members, members[i].0) == Some(members[i].1)
  {
    if i > 0 {
      assert UniqueKeys(members[1..]) by {
        forall a, b | 0 <= a < b < |members[1..]|
          ensures members[1..][a].0 != members[1..][b].0
        {
          assert members[1..][a] == members[a + 1] && members[1..][b] == members[b + 1];
        }
      }
      LookupMember(members[1..], i - 1);
      assert members[1..][i - 1] == members[i];
    }
  }

  /** `Value::get` with a string index: a member of an object; nothing for any other value. */
  function Get(j: Json, key: string): (r: Option<Json>)
    ensures r.Some? <==> j.Obj? && HasKey(j.members, key)
    ensures r.Some? ==> exists i :: 0 <= i < |j.members| && j.members[i] == (key, r.value)
  {
    if j.Obj? then Lookup(j.members, key) else None
  }

  /** `Value::as_str`: the text of a string value only. */
  function AsStr(j: Json): (r: Option<string>)
    ensures r.Some? <==> j.Str?
    ensures r.Some? ==> j == Str(r.value)
  {
    if j.Str? then Some(j.s) else None
  }

  /** `Value::as_array`: the elements of an array value only. */
  function AsArray(j: Json): (r: Option<seq<Json>>)
    ensures r.Some? <==> j.Arr?
    ensures r.Some? ==> j == Arr(r.value)
  {
    if j.Arr? then Some(j.items) else None
  }

  /** `Value::as_object`: the members of an object value only. */
  function AsObject(j: Json): (r: Option<seq<(string, Json)>>)
    ensures r.Some? <==> j.Obj?
    ensures r.Some? ==> j == Obj(r.value)
  {
    if j.Obj? then Some(j.members) else None
  }

  /** Navigation along a path of member names, as a chain of `get` calls does. */
  function Path(j: Json, keys: seq<string>): Option<Json>
    decreases |keys|
  {
    if keys == [] then Some(j)
    else match Get(j, keys[0])
      case None => None
      case Some(child) => Path(child, keys[1..])
  }

  /** One step of a path: the first name leads to a member, the rest of the path continues from it. */
  lemma PathStep(j: Json, key: string, rest: seq<string>)
    ensures Path(j, [key] + rest) == if Get(j, key).None? then None else Path(Get(j, key).value, rest)
  {
    assert ([key] + rest)[0] == key && ([key] + rest)[1..] == rest;
  }
}
