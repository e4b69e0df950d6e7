/** JavaScript value semantics that the game client and the relay server rely on:
    optional values, the JSON values that travel over the relay, truthiness,
    the `||` operator and property access on an object. */
module Js {

  datatype Option<+T> = None | Some(value: T)

  /** A JSON value as it arrives from the network (NaN is not modelled). */
  datatype Json =
    | Undefined
    | Null
    | Bool(b: bool)
    | Num(n: real)
    | Str(s: string)
    | Arr(items: seq<Json>)
    | Obj(fields: map<string, Json>)

  /** JavaScript's ToBoolean on a value. */
  predicate Truthy(j: Json)
  {
    match j
    case Undefined => false
    case Null => false
    case Bool(b) => b
    case Num(n) => n != 0.0
    case Str(s) => s != ""
    case Arr(_) => true
    case Obj(_) => true
  }

  /** `a || b`: the left operand when it is truthy, otherwise the right one. */
  function Or(a: Json, b: Json): (r: Json)
    ensures Truthy(a) ==> r == a
    ensures !Truthy(a) ==> r == b
  {
    if Truthy(a) then a else b
  }

  /** `o.key`: a missing property, and any property of a non-object, reads as undefined. */
  function Field(o: Json, key: string): (r: Json)
    ensures o.Obj? && key in o.fields ==> r == o.fields[key]
    ensures !(o.Obj? && key in o.fields) ==> r == Undefined
  {
    if o.Obj? && key in o.fields then o.fields[key] else Undefined
  }

  /** A string-or-null value (a query parameter, a storage entry) is truthy when present and non-empty. */
  predicate Present(o: Option<string>)
  {
    o.Some? && o.value != ""
  }

  /** `o1 || o2 || ... || null` over string-or-null values: the first present option, or null. */
  function FirstNonEmpty(options: seq<Option<string>>): (r: Option<string>)
    ensures r.None? <==> forall i :: 0 <= i < |options| ==> !Present(options[i])
    ensures r.Some? ==> exists i :: 0 <= i < |options| && options[i] == r && r.value != "" &&
                                    forall j :: 0 <= j < i ==> !Present(options[j])
  {
    if options == [] then None
    else if Present(options[0]) then options[0]
    else
      var rest := FirstNonEmpty(options[1..]);
      assert forall i :: 1 <= i < |options| ==> options[i] == options[1..][i - 1];
      if rest.Some? then
        var k :| 0 <= k < |options[1..]| && options[1..][k] == rest && rest.value != "" &&
                 forall j :: 0 <= j < k ==> !Present(options[1..][j]);
        assert options[k + 1] == rest;
        rest
      else
        rest
  }
}
