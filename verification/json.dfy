/** The JSON value type the library works on (nlohmann::json), kept abstract
    where the core never looks inside: numbers are opaque. An object is its
    ordered member list, in the order the library iterates it. */
module JsonValue {
  import opened Wrappers

  datatype Json =
    | Null
    | Bool(b: bool)
    | Number(repr: string)
    | Str(s: string)
    | Arr(items: seq<Json>)
    | Obj(members: seq<Member>)

  datatype Member = Member(key: string, value: Json)

  /** `json::object()`. */
  const EmptyObject: Json := Obj([])

  /** The value stored under `key` in a member list: the first member with that key. */
  function Lookup(members: seq<Member>, key: string): (r: Option<Json>)
    ensures r.Some? <==> exists i :: 0 <= i < |members| && members[i].key == key
    ensures r.Some? ==> exists i :: 0 <= i < |members| && members[i].key == key && members[i].value == r.value
  {
    if |members| == 0 then None
    else if members[0].key == key then Some(members[0].value)
    else
      var r := Lookup(members[1..], key);
      assert forall i :: 1 <= i < |members| ==> members[i] == members[1..][i - 1];
      r
  }

  /** `j.contains(key) ? Some(j[key]) : None`; `contains` is false on every non-object. */
  function Field(j: Json, key: string): Option<Json> {
    if j.Obj? then Lookup(j.members, key) else None
  }

  predicate Has(j: Json, key: string) {
    Field(j, key).Some?
  }

  /** The elements a range-for over `j` visits: an array's items, an object's
      member values, nothing for null, and the value itself for any other scalar. */
  function Iterate(j: Json): (r: seq<Json>)
    ensures j.Arr? ==> r == j.items
    ensures j.Null? ==> r == []
    ensures j.Obj? ==> |r| == |j.members| && forall i :: 0 <= i < |r| ==> r[i] == j.members[i].value
    ensures !j.Arr? && !j.Obj? && !j.Null? ==> r == [j]
  {
    match j
    case Arr(items) => items
    case Obj(members) => seq(|members|, i requires 0 <= i < |members| => members[i].value)
    case Null => []
    case _ => [j]
  }

  /** What the library raises when the core reads a document it did not expect. */
  datatype JsonFault =
    | NotAnObject   // `value()` called on something other than an object
    | NotAString    // `value()` found the key, but not holding a string
    | ParseError    // `json::parse` rejected the text

  /** `j.value(key, default)` read as a string: the default when the key is
      absent, a fault on a non-object or a non-string member. */
  function ValueString(j: Json, key: string, default: string): (r: Result<string, JsonFault>)
    ensures !j.Obj? ==> r == Err(NotAnObject)
    ensures j.Obj? && !Has(j, key) ==> r == Ok(default)
    ensures j.Obj? && Has(j, key) ==> (r.Ok? <==> Field(j, key).value.Str?)
    ensures r.Ok? && Has(j, key) ==> Field(j, key) == Some(Str(r.value))
    ensures r.Err? ==> r.error != ParseError
  {
    if !j.Obj? then Err(NotAnObject)
    else match Field(j, key)
      case None => Ok(default)
      case Some(Str(s)) => Ok(s)
      case Some(_) => Err(NotAString)
  }
}
