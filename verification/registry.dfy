/** `ToolRegistry`'s store: a name-keyed map of handlers and a name-keyed map
    of schemas, kept in step by every registration. */
module ToolRegistry {
  import opened Wrappers
  import opened JsonValue
  import opened Ordering

  /** What calling a handler (or the registry on its behalf) comes to: a
      returned value, a `std::exception` with its `what()` text, or something
      thrown that is not a `std::exception`. */
  datatype Outcome = Returned(value: Json) | Threw(what: string) | ThrewNonStandard

  /** A tool's body; opaque to the registry. */
  type Handler = Json -> Outcome

  datatype Registry = Registry(tools: map<string, Handler>, schemas: map<string, Json>)

  /** Every registered name has both a handler and a schema. */
  predicate Valid(reg: Registry) {
    reg.tools.Keys == reg.schemas.Keys
  }

  const EmptyRegistry: Registry := Registry(map[], map[])

  /** `std::map::emplace`: insert only when the key is absent. */
  function Emplace<V>(m: map<string, V>, key: string, value: V): (r: map<string, V>)
    ensures r.Keys == m.Keys + {key}
    ensures key in m ==> r[key] == m[key]
    ensures key !in m ==> r[key] == value
    ensures forall k :: k in m && k != key ==> r[k] == m[k]
  {
    if key in m then m else m[key := value]
  }

  /** `register_tool`: the first registration of a name wins; later ones
      change nothing, and no other name is touched. */
  function RegisterTool(reg: Registry, name: string, handler: Handler, schema: Json): (r: Registry)
    ensures r.tools.Keys == reg.tools.Keys + {name}
    ensures r.schemas.Keys == reg.schemas.Keys + {name}
    ensures name in reg.tools ==> r.tools[name] == reg.tools[name]
    ensures name in reg.schemas ==> r.schemas[name] == reg.schemas[name]
    ensures name !in reg.tools ==> r.tools[name] == handler
    ensures name !in reg.schemas ==> r.schemas[name] == schema
    ensures forall n :: n in reg.tools && n != name ==> r.tools[n] == reg.tools[n]
    ensures forall n :: n in reg.schemas && n != name ==> r.schemas[n] == reg.schemas[n]
  {
    Registry(Emplace(reg.tools, name, handler), Emplace(reg.schemas, name, schema))
  }

  /** Registration keeps the handler map and the schema map on the same key set. */
  lemma RegisterPreservesValid(reg: Registry, name: string, handler: Handler, schema: Json)
    requires Valid(reg)
    ensures Valid(RegisterTool(reg, name, handler, schema))
  {
  }

  /** Registering an already-present name is a no-op. */
  lemma RegisterExistingIsNoOp(reg: Registry, name: string, handler: Handler, schema: Json)
    requires Valid(reg) && name in reg.tools
    ensures RegisterTool(reg, name, handler, schema) == reg
  {
  }

  /** One `register_tool` call: a name, its handler and its schema. */
  datatype Registration = Registration(name: string, handler: Handler, schema: Json)

  /** The registry after a run of registrations, starting from an empty one. */
  function RegisterAll(ops: seq<Registration>): Registry {
    if |ops| == 0 then EmptyRegistry
    else
      var last := ops[|ops| - 1];
      RegisterTool(RegisterAll(ops[..|ops| - 1]), last.name, last.handler, last.schema)
  }

  /** The names a run of registrations mentions. */
  function NamesOf(ops: seq<Registration>): set<string> {
    set i | 0 <= i < |ops| :: ops[i].name
  }

  lemma NamesOfSnoc(ops: seq<Registration>)
    requires |ops| > 0
    ensures NamesOf(ops) == NamesOf(ops[..|ops| - 1]) + {ops[|ops| - 1].name}
  {
    var init := ops[..|ops| - 1];
    assert forall i :: 0 <= i < |init| ==> init[i] == ops[i];
  }

  /** Every registry built by registrations keeps its two maps on one key
      set, and its names are exactly the registered names. */
  lemma {:induction false} RegisterAllValid(ops: seq<Registration>)
    ensures Valid(RegisterAll(ops))
    ensures RegisterAll(ops).tools.Keys == NamesOf(ops)
  {
    if |ops| > 0 {
      var init := ops[..|ops| - 1];
      RegisterAllValid(init);
      NamesOfSnoc(ops);
      RegisterPreservesValid(RegisterAll(init), ops[|ops| - 1].name, ops[|ops| - 1].handler, ops[|ops| - 1].schema);
    }
  }

  /** The first registration of a name wins: its handler and schema are the
      ones the registry keeps, whatever is registered under that name later. */
  lemma {:induction false} FirstRegistrationWins(ops: seq<Registration>, i: nat)
    requires i < |ops|
    requires forall j :: 0 <= j < i ==> ops[j].name != ops[i].name
    ensures ops[i].name in RegisterAll(ops).tools && ops[i].name in RegisterAll(ops).schemas
    ensures RegisterAll(ops).tools[ops[i].name] == ops[i].handler
    ensures RegisterAll(ops).schemas[ops[i].name] == ops[i].schema
  {
    if i == |ops| - 1 {
      LastIsFresh(ops);
    } else {
      assert ops[..|ops| - 1][i] == ops[i];
      FirstRegistrationWins(ops[..|ops| - 1], i);
      KeptByLater(ops, ops[i].name, ops[i].handler, ops[i].schema);
    }
  }

  lemma LastIsFresh(ops: seq<Registration>)
    requires |ops| > 0
    requires forall j :: 0 <= j < |ops| - 1 ==> ops[j].name != ops[|ops| - 1].name
    ensures var last := ops[|ops| - 1];
      last.name in RegisterAll(ops).tools && RegisterAll(ops).tools[last.name] == last.handler
      && last.name in RegisterAll(ops).schemas && RegisterAll(ops).schemas[last.name] == last.schema
  {
    var init := ops[..|ops| - 1];
    var last := ops[|ops| - 1];
    RegisterAllValid(init);
    NotYetRegistered(init, last.name);
    RegisterStep(RegisterAll(init), last, last.name, last.handler, last.schema);
  }

  lemma KeptByLater(ops: seq<Registration>, n: string, h: Handler, sc: Json)
    requires |ops| > 0
    requires var prev := RegisterAll(ops[..|ops| - 1]);
      n in prev.tools && prev.tools[n] == h && n in prev.schemas && prev.schemas[n] == sc
    ensures n in RegisterAll(ops).tools && RegisterAll(ops).tools[n] == h
      && n in RegisterAll(ops).schemas && RegisterAll(ops).schemas[n] == sc
  {
    RegisterStep(RegisterAll(ops[..|ops| - 1]), ops[|ops| - 1], n, h, sc);
  }

  lemma NotYetRegistered(init: seq<Registration>, name: string)
    requires forall j :: 0 <= j < |init| ==> init[j].name != name
    ensures name !in NamesOf(init)
  {
  }

  /** What one more registration does to a name that is either absent
      before it, or present with a given handler and schema. */
  lemma RegisterStep(prev: Registry, op: Registration, n: string, h: Handler, sc: Json)
    requires || (n == op.name && n !in prev.tools && n !in prev.schemas && h == op.handler && sc == op.schema)
             || (n in prev.tools && prev.tools[n] == h && n in prev.schemas && prev.schemas[n] == sc)
    ensures var next := RegisterTool(prev, op.name, op.handler, op.schema);
      n in next.tools && next.tools[n] == h && n in next.schemas && next.schemas[n] == sc
  {
  }

  /** Registrations of different names commute, so the store (and its schema
      listing) does not depend on registration order. */
  lemma RegistrationsCommute(reg: Registry, a: string, ha: Handler, sa: Json, b: string, hb: Handler, sb: Json)
    requires a != b
    ensures RegisterTool(RegisterTool(reg, a, ha, sa), b, hb, sb) == RegisterTool(RegisterTool(reg, b, hb, sb), a, ha, sa)
  {
    EmplaceCommutes(reg.tools, a, ha, b, hb);
    EmplaceCommutes(reg.schemas, a, sa, b, sb);
  }

  lemma EmplaceCommutes<V>(m: map<string, V>, a: string, va: V, b: string, vb: V)
    requires a != b
    ensures Emplace(Emplace(m, a, va), b, vb) == Emplace(Emplace(m, b, vb), a, va)
  {
    if a !in m && b !in m {
      assert m[a := va][b := vb] == m[b := vb][a := va];
    }
  }

  datatype ToolSpec = ToolSpec(name: string, description: string, parameters: Json, handler: Handler)

  /** The schema `register_tool_spec` builds: an object with exactly the keys
      `description`, `name` and `parameters` (in the library's key order). */
  function SpecSchema(spec: ToolSpec): (r: Json)
    ensures r.Obj? && |r.members| == 3
    ensures Field(r, "name") == Some(Str(spec.name))
    ensures Field(r, "description") == Some(Str(spec.description))
    ensures Field(r, "parameters") == Some(spec.parameters)
    ensures forall k :: 0 <= k < |r.members| ==> r.members[k].key in {"name", "description", "parameters"}
  {
    var ms := [Member("description", Str(spec.description)), Member("name", Str(spec.name)), Member("parameters", spec.parameters)];
    assert ms[1..][1..] == [Member("parameters", spec.parameters)];
    assert Lookup(ms[1..][1..], "parameters") == Some(spec.parameters);
    assert Lookup(ms[1..], "name") == Some(Str(spec.name));
    Obj(ms)
  }

  /** `register_tool_spec`: registers the spec's handler under its name with
      the schema built from it, unless the name is already taken. */
  function RegisterToolSpec(reg: Registry, spec: ToolSpec): (r: Registry)
    ensures Valid(reg) ==> Valid(r)
    ensures spec.name in r.tools && spec.name in r.schemas
    ensures spec.name !in reg.tools ==> r.tools[spec.name] == spec.handler
    ensures spec.name !in reg.schemas ==> r.schemas[spec.name] == SpecSchema(spec)
    ensures Valid(reg) && spec.name in reg.tools ==> r == reg
    ensures forall n :: n in reg.tools && n != spec.name ==> n in r.tools && r.tools[n] == reg.tools[n]
  {
    RegisterTool(reg, spec.name, spec.handler, SpecSchema(spec))
  }

  /** `invoke`: the registered handler's outcome on `args`; an unregistered
      name raises "Tool not found: " followed by the name. */
  function Invoke(reg: Registry, name: string, args: Json): (r: Outcome)
    ensures name in reg.tools ==> r == reg.tools[name](args)
    ensures name !in reg.tools ==> r == Threw("Tool not found: " + name)
  {
    if name in reg.tools then reg.tools[name](args) else Threw("Tool not found: " + name)
  }

  /** `invoke_concurrent`: the same lookup, with the handler run as an
      asynchronous task whose result is awaited at once. */
  function InvokeConcurrent(reg: Registry, name: string, args: Json): (r: Outcome)
    ensures r == Invoke(reg, name, args)
  {
    if name !in reg.tools then Threw("Tool not found: " + name)
    else
      var task := reg.tools[name];
      task(args)
  }

  /** The least name of a non-empty set, in `std::string` order. */
  method LeastName(names: set<string>) returns (least: string)
    requires names != {}
    ensures least in names
    ensures forall x :: x in names && x != least ==> Below(least, x)
  {
    least :| least in names;
    var unseen := names - {least};
    while unseen != {}
      invariant least in names && unseen <= names && least !in unseen
      invariant forall x :: x in names && x !in unseen && x != least ==> Below(least, x)
      decreases unseen
    {
      var x :| x in unseen;
      if Below(x, least) {
        forall y | y in names && y !in unseen && y != x
          ensures Below(x, y)
        {
          if y != least {
            BelowTransitive(x, least, y);
          }
        }
        least := x;
      } else {
        BelowTotal(x, least);
      }
      unseen := unseen - {x};
    }
  }

  /** The keys of a map in the order a `std::map` visits them. */
  method NamesInOrder(names: set<string>) returns (ordered: seq<string>)
    ensures Ascending(ordered)
    ensures forall x :: x in ordered <==> x in names
    ensures ordered == Sorted(names)
  {
    ordered := [];
    var left := names;
    while left != {}
      invariant left <= names
      invariant Ascending(ordered)
      invariant forall x :: x in names <==> x in ordered || x in left
      invariant forall x :: x in ordered ==> x !in left
      invariant forall i, x :: 0 <= i < |ordered| && x in left ==> Below(ordered[i], x)
      invariant |ordered| + |left| == |names|
      decreases left
    {
      var m := LeastName(left);
      ordered := ordered + [m];
      left := left - {m};
    }
    AscendingUnique(ordered, Sorted(names));
  }

  /** The schemas stored under the given names, in the order of the names. */
  method SchemasOf(reg: Registry, ordered: seq<string>) returns (listing: seq<Json>)
    requires forall k :: 0 <= k < |ordered| ==> ordered[k] in reg.schemas
    ensures |listing| == |ordered|
    ensures forall k :: 0 <= k < |ordered| ==> listing[k] == reg.schemas[ordered[k]]
  {
    listing := [];
    var i := 0;
    while i < |ordered|
      invariant 0 <= i <= |ordered|
      invariant |listing| == i
      invariant forall k :: 0 <= k < i ==> listing[k] == reg.schemas[ordered[k]]
    {
      listing := listing + [reg.schemas[ordered[i]]];
      i := i + 1;
    }
  }

  /** `schemas()`: one schema per registered name, in ascending name order
      whatever the order of registration. */
  method Schemas(reg: Registry) returns (listing: seq<Json>)
    ensures |listing| == |reg.schemas|
    ensures forall i :: 0 <= i < |listing| ==> listing[i] == reg.schemas[Sorted(reg.schemas.Keys)[i]]
  {
    var ordered := NamesInOrder(reg.schemas.Keys);
    listing := SchemasOf(reg, ordered);
  }

  /** `tools_for_openai()`: the schema listing, unchanged. */
  method ToolsForOpenAI(reg: Registry) returns (listing: seq<Json>)
    ensures |listing| == |reg.schemas|
    ensures forall i :: 0 <= i < |listing| ==> listing[i] == reg.schemas[Sorted(reg.schemas.Keys)[i]]
  {
    listing := Schemas(reg);
  }
}
