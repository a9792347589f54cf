/** Response normalisation and tool-call discovery: from one response
    document to the ordered list of (name, arguments) pairs it requests
    (`pick_message_like`, `collect_tool_calls_from_node`,
    `parse_function_arguments` and the entry normalisation of
    `process_remote_response_and_execute`). */
module CallDiscovery {
  import opened Wrappers
  import opened JsonValue

  /** The JSON text parser the core calls (`json::parse`); None is a parse error. */
  type Parser = string -> Option<Json>

  /** One requested tool invocation. */
  datatype Call = Call(name: string, args: Json)

  /** `parse_function_arguments`: the call's arguments as a JSON value. A
      string is parsed (an unparsable one becomes `{}`), an object or array
      is used as it is, and anything else, or no `arguments` at all, is `{}`. */
  function ParseFunctionArguments(parse: Parser, func: Json): (r: Json)
    ensures !Has(func, "arguments") ==> r == EmptyObject
    ensures var a := Field(func, "arguments");
      a.Some? && a.value.Str? ==> r == (if parse(a.value.s).Some? then parse(a.value.s).value else EmptyObject)
    ensures var a := Field(func, "arguments");
      a.Some? && (a.value.Obj? || a.value.Arr?) ==> r == a.value
    ensures var a := Field(func, "arguments");
      a.Some? && !a.value.Str? && !a.value.Obj? && !a.value.Arr? ==> r == EmptyObject
    // a scalar can only arrive as the parse of argument text
    ensures var a := Field(func, "arguments");
      !r.Obj? && !r.Arr? ==> a.Some? && a.value.Str? && parse(a.value.s) == Some(r)
  {
    match Field(func, "arguments")
    case None => EmptyObject
    case Some(a) =>
      if a.Str? then parse(a.s).GetOr(EmptyObject)
      else if a.Obj? || a.Arr? then a
      else EmptyObject
  }

  /** The call description inside one `tool_calls` element: its `function`
      member if it has one, else the element itself. */
  function FunctionOf(tc: Json): (r: Json)
    ensures Has(tc, "function") ==> r == Field(tc, "function").value
    ensures !Has(tc, "function") ==> r == tc
  {
    match Field(tc, "function")
    case Some(f) => f
    case None => tc
  }

  /** One call description (`{name, arguments}`): a call when the name is
      non-empty, nothing when it is empty or missing, a fault when `value()`
      cannot read the name. */
  function CallFrom(parse: Parser, func: Json): (r: Result<seq<Call>, JsonFault>)
    ensures r.Err? <==> !func.Obj? || (Has(func, "name") && !Field(func, "name").value.Str?)
    ensures r == Ok([]) <==> func.Obj? && (Field(func, "name") == None || Field(func, "name") == Some(Str("")))
    ensures r.Ok? && r.value != [] ==>
      && Field(func, "name").Some? && Field(func, "name").value.Str?
      && Field(func, "name").value.s != ""
      && r.value == [Call(Field(func, "name").value.s, ParseFunctionArguments(parse, func))]
  {
    var name :- ValueString(func, "name", "");
    if name == "" then Ok([]) else Ok([Call(name, ParseFunctionArguments(parse, func))])
  }

  /** The calls of a `tool_calls` array, in array order; the first fault aborts. */
  function CallsFromToolCalls(parse: Parser, items: seq<Json>): (r: Result<seq<Call>, JsonFault>)
    ensures r.Ok? ==> |r.value| <= |items|
    ensures r.Ok? ==> forall k :: 0 <= k < |r.value| ==> r.value[k].name != ""
  {
    if |items| == 0 then Ok([])
    else
      var first :- CallFrom(parse, FunctionOf(items[0]));
      var rest :- CallsFromToolCalls(parse, items[1..]);
      Ok(first + rest)
  }

  /** A `tool_calls` array is read without fault exactly when every
      element's call description is. */
  lemma {:induction false} ToolCallsReadWithoutFault(parse: Parser, items: seq<Json>)
    ensures CallsFromToolCalls(parse, items).Ok?
      <==> forall k :: 0 <= k < |items| ==> CallFrom(parse, FunctionOf(items[k])).Ok?
    decreases |items|
  {
    if |items| > 0 {
      ToolCallsReadWithoutFault(parse, items[1..]);
      assert forall k :: 1 <= k < |items| ==> items[k] == items[1..][k - 1];
    }
  }

  /** Whether a node's `tool_calls` is an array, and so walked. */
  predicate HasToolCallArray(node: Json) {
    Has(node, "tool_calls") && Field(node, "tool_calls").value.Arr?
  }

  /** Whether a node's `function_call` is an object, and so read. */
  predicate HasFunctionCallObject(node: Json) {
    Has(node, "function_call") && Field(node, "function_call").value.Obj?
  }

  /** `collect_tool_calls_from_node`: first every call of a `tool_calls`
      array, then the legacy `function_call` object, if present. A
      `tool_calls` that is not an array and a `function_call` that is not an
      object are ignored. */
  function CollectToolCallsFromNode(parse: Parser, node: Json): (r: Result<seq<Call>, JsonFault>)
    ensures r.Ok? ==> forall k :: 0 <= k < |r.value| ==> r.value[k].name != ""
    ensures !HasToolCallArray(node) && !HasFunctionCallObject(node) ==> r == Ok([])
    ensures HasToolCallArray(node) && !HasFunctionCallObject(node) ==>
      r == CallsFromToolCalls(parse, Field(node, "tool_calls").value.items)
    ensures !HasToolCallArray(node) && HasFunctionCallObject(node) ==>
      r == CallFrom(parse, Field(node, "function_call").value)
    ensures HasToolCallArray(node) && HasFunctionCallObject(node) ==>
      var m := CallsFromToolCalls(parse, Field(node, "tool_calls").value.items);
      var l := CallFrom(parse, Field(node, "function_call").value);
      && (r.Ok? <==> m.Ok? && l.Ok?)
      && (r.Ok? ==> r.value == m.value + l.value)
  {
    var modern :- match Field(node, "tool_calls")
      case Some(Arr(items)) => CallsFromToolCalls(parse, items)
      case _ => Ok([]);
    var legacy :- match Field(node, "function_call")
      case Some(fc) => if fc.Obj? then CallFrom(parse, fc) else Ok([])
      case None => Ok([]);
    assert modern + [] == modern;
    assert [] + legacy == legacy;
    Ok(modern + legacy)
  }

  /** `pick_message_like`: an object's `message`, else its `delta`, else the entry itself. */
  function PickMessageLike(entry: Json): (r: Json)
    ensures Has(entry, "message") ==> r == Field(entry, "message").value
    ensures !Has(entry, "message") && Has(entry, "delta") ==> r == Field(entry, "delta").value
    ensures !Has(entry, "message") && !Has(entry, "delta") ==> r == entry
  {
    if entry.Obj? then
      if Has(entry, "message") then Field(entry, "message").value
      else if Has(entry, "delta") then Field(entry, "delta").value
      else entry
    else entry
  }

  /** The entries of a response: the elements of `choices` when the document
      is an object that has it, the elements of an array document, and the
      document itself otherwise. */
  function Entries(doc: Json): (r: seq<Json>)
    ensures Has(doc, "choices") ==> r == Iterate(Field(doc, "choices").value)
    ensures doc.Arr? ==> r == doc.items
    ensures !doc.Arr? && !Has(doc, "choices") ==> r == [doc]
  {
    if doc.Obj? && Has(doc, "choices") then Iterate(Field(doc, "choices").value)
    else if !doc.Arr? then [doc]
    else doc.items
  }

  /** The calls of a sequence of entries, accumulated in one list in entry order. */
  function CollectFromEntries(parse: Parser, entries: seq<Json>): (r: Result<seq<Call>, JsonFault>)
    ensures r.Ok? ==> forall k :: 0 <= k < |r.value| ==> r.value[k].name != ""
  {
    if |entries| == 0 then Ok([])
    else
      var first :- CollectToolCallsFromNode(parse, PickMessageLike(entries[0]));
      var rest :- CollectFromEntries(parse, entries[1..]);
      Ok(first + rest)
  }

  /** Whether an entry's message-like node is read without a library fault. */
  predicate EntryReadable(parse: Parser, entry: Json) {
    CollectToolCallsFromNode(parse, PickMessageLike(entry)).Ok?
  }

  /** A fault in any entry is a fault of the whole: a run of entries is read
      without fault exactly when every entry's message-like node is. */
  lemma {:induction false} EntriesReadWithoutFault(parse: Parser, entries: seq<Json>)
    ensures CollectFromEntries(parse, entries).Ok? <==> forall k :: 0 <= k < |entries| ==> EntryReadable(parse, entries[k])
    decreases |entries|
  {
    if |entries| > 0 {
      var tail := entries[1..];
      EntriesReadWithoutFault(parse, tail);
      assert forall k :: 1 <= k < |entries| ==> entries[k] == tail[k - 1];
      if EntryReadable(parse, entries[0]) && CollectFromEntries(parse, tail).Ok? {
        assert CollectFromEntries(parse, entries).Ok?;
      }
    }
  }

  /** Step 1 of `process_remote_response_and_execute`: every call the document requests, in order. */
  function DiscoverCalls(parse: Parser, doc: Json): (r: Result<seq<Call>, JsonFault>)
    ensures r.Ok? ==> forall k :: 0 <= k < |r.value| ==> r.value[k].name != ""
  {
    CollectFromEntries(parse, Entries(doc))
  }


  /** Calls accumulate in one list across entries: the calls of two runs of
      entries are the calls of the first followed by those of the second, and
      a fault in either is a fault of the whole. */
  lemma {:induction false} CollectFromEntriesAppend(parse: Parser, e1: seq<Json>, e2: seq<Json>)
    ensures CollectFromEntries(parse, e1 + e2) ==
      (match CollectFromEntries(parse, e1)
       case Err(f) => Err(f)
       case Ok(c1) =>
         match CollectFromEntries(parse, e2)
         case Err(f) => Err(f)
         case Ok(c2) => Ok(c1 + c2))
    decreases |e1|
  {
    if |e1| > 0 {
      assert (e1 + e2)[0] == e1[0];
      assert (e1 + e2)[1..] == e1[1..] + e2;
      CollectFromEntriesAppend(parse, e1[1..], e2);
      var first := CollectToolCallsFromNode(parse, PickMessageLike(e1[0]));
      if first.Ok? && CollectFromEntries(parse, e1[1..]).Ok? && CollectFromEntries(parse, e2).Ok? {
        var r1 := CollectFromEntries(parse, e1[1..]).value;
        var r2 := CollectFromEntries(parse, e2).value;
        assert first.value + (r1 + r2) == (first.value + r1) + r2;
      }
    } else {
      assert e1 + e2 == e2;
      var r2 := CollectFromEntries(parse, e2);
      if r2.Ok? {
        assert [] + r2.value == r2.value;
      }
    }
  }

  /** A `tool_calls` element in the chat-completion shape:
      `{"function": {"arguments": <text>, "name": <name>}}`. */
  function ToolCallElement(name: string, argText: string): Json {
    Obj([Member("function", CallObject(name, argText))])
  }

  /** A call description `{"arguments": <text>, "name": <name>}`, keys in library order. */
  function CallObject(name: string, argText: string): Json {
    Obj([Member("arguments", Str(argText)), Member("name", Str(name))])
  }

  /** The call a description with that name and argument text requests. */
  function ExpectedCall(parse: Parser, name: string, argText: string): Call {
    Call(name, if parse(argText).Some? then parse(argText).value else EmptyObject)
  }

  lemma CallObjectCall(parse: Parser, name: string, argText: string)
    requires name != ""
    ensures CallFrom(parse, CallObject(name, argText)) == Ok([ExpectedCall(parse, name, argText)])
  {
    var ms := CallObject(name, argText).members;
    assert ms[1..] == [Member("name", Str(name))];
    assert ms[1..][1..] == [];
    assert "arguments" != "name" by { assert |"arguments"| != |"name"|; }
    assert Lookup(ms[1..], "name") == Some(Str(name));
    assert Lookup(ms, "name") == Some(Str(name));
    assert Lookup(ms, "arguments") == Some(Str(argText));
  }

  lemma ToolCallElementCall(parse: Parser, name: string, argText: string)
    requires name != ""
    ensures CallFrom(parse, FunctionOf(ToolCallElement(name, argText))) == Ok([ExpectedCall(parse, name, argText)])
  {
    var ms := ToolCallElement(name, argText).members;
    assert Lookup(ms, "function") == Some(CallObject(name, argText));
    CallObjectCall(parse, name, argText);
  }

  /** When every element of a `tool_calls` array yields exactly one call,
      the array yields those calls in array order. */
  lemma {:induction false} OneCallEach(parse: Parser, items: seq<Json>, calls: seq<Call>)
    requires |items| == |calls|
    requires forall i :: 0 <= i < |items| ==> CallFrom(parse, FunctionOf(items[i])) == Ok([calls[i]])
    ensures CallsFromToolCalls(parse, items) == Ok(calls)
    decreases |items|
  {
    if |items| > 0 {
      assert CallFrom(parse, FunctionOf(items[0])) == Ok([calls[0]]);
      OneCallEach(parse, items[1..], calls[1..]);
      assert calls == [calls[0]] + calls[1..];
    }
  }

  /** A single entry contributes exactly its own calls. */
  lemma SingleEntry(parse: Parser, entry: Json)
    ensures CollectFromEntries(parse, [entry]) == CollectToolCallsFromNode(parse, PickMessageLike(entry))
  {
    assert [entry][1..] == [];
    var r := CollectToolCallsFromNode(parse, PickMessageLike(entry));
    if r.Ok? {
      assert r.value + [] == r.value;
    }
  }

  /** A full chat-completion response `{"choices": [{"message": <message>}]}`. */
  function ChatResponse(message: Json): Json {
    Obj([Member("choices", Arr([Obj([Member("message", message)])]))])
  }

  lemma ChatResponseEntry(message: Json)
    ensures Entries(ChatResponse(message)) == [Obj([Member("message", message)])]
    ensures PickMessageLike(Obj([Member("message", message)])) == message
  {
    assert Lookup(ChatResponse(message).members, "choices") == Some(Arr([Obj([Member("message", message)])]));
    assert Lookup(Obj([Member("message", message)]).members, "message") == Some(message);
  }

  /** A response whose one choice carries N chat-completion tool calls
      requests exactly those N calls, in the order of the `tool_calls` array,
      with string arguments parsed. */
  lemma ChatCompletionCalls(parse: Parser, names: seq<string>, argTexts: seq<string>)
    requires |names| == |argTexts|
    requires forall i :: 0 <= i < |names| ==> names[i] != ""
    ensures var items := seq(|names|, i requires 0 <= i < |names| => ToolCallElement(names[i], argTexts[i]));
      DiscoverCalls(parse, ChatResponse(Obj([Member("tool_calls", Arr(items))])))
        == Ok(seq(|names|, i requires 0 <= i < |names| => ExpectedCall(parse, names[i], argTexts[i])))
  {
    var items := seq(|names|, i requires 0 <= i < |names| => ToolCallElement(names[i], argTexts[i]));
    var calls := seq(|names|, i requires 0 <= i < |names| => ExpectedCall(parse, names[i], argTexts[i]));
    var message := Obj([Member("tool_calls", Arr(items))]);
    forall i | 0 <= i < |items|
      ensures CallFrom(parse, FunctionOf(items[i])) == Ok([calls[i]])
    {
      ToolCallElementCall(parse, names[i], argTexts[i]);
    }
    OneCallEach(parse, items, calls);
    ChatResponseEntry(message);
    assert Lookup(message.members, "tool_calls") == Some(Arr(items));
    assert Field(message, "function_call") == None;
    assert CollectToolCallsFromNode(parse, message) == Ok(calls + []);
    assert calls + [] == calls;
    SingleEntry(parse, Obj([Member("message", message)]));
  }

  /** A response using the legacy `function_call` field requests exactly one
      call, with that name and arguments. */
  lemma LegacyFunctionCall(parse: Parser, name: string, argText: string)
    requires name != ""
    ensures DiscoverCalls(parse, ChatResponse(Obj([Member("function_call", CallObject(name, argText))])))
      == Ok([ExpectedCall(parse, name, argText)])
  {
    var message := Obj([Member("function_call", CallObject(name, argText))]);
    CallObjectCall(parse, name, argText);
    ChatResponseEntry(message);
    assert Field(message, "tool_calls") == None;
    assert Lookup(message.members, "function_call") == Some(CallObject(name, argText));
    assert CollectToolCallsFromNode(parse, message) == Ok([] + [ExpectedCall(parse, name, argText)]);
    assert [] + [ExpectedCall(parse, name, argText)] == [ExpectedCall(parse, name, argText)];
    SingleEntry(parse, Obj([Member("message", message)]));
  }

  /** The three accepted response shapes agree: a bare message, a list of
      choices holding it, and a full response holding that list request the
      same calls. */
  lemma ShapesAgree(parse: Parser, message: Json)
    requires message.Obj? && !Has(message, "choices") && !Has(message, "message") && !Has(message, "delta")
    ensures DiscoverCalls(parse, Arr([Obj([Member("message", message)])])) == DiscoverCalls(parse, message)
    ensures DiscoverCalls(parse, ChatResponse(message)) == DiscoverCalls(parse, message)
  {
    ChatResponseEntry(message);
    SingleEntry(parse, message);
    SingleEntry(parse, Obj([Member("message", message)]));
    assert Entries(message) == [message];
    assert Entries(Arr([Obj([Member("message", message)])])) == [Obj([Member("message", message)])];
  }

  /** Two runs of calls read one after the other: the first fault wins,
      otherwise the calls of the first run come before those of the second. */
  function Join(x: Result<seq<Call>, JsonFault>, y: Result<seq<Call>, JsonFault>): (r: Result<seq<Call>, JsonFault>)
    ensures x.Err? ==> r == x
    ensures x.Ok? && y.Err? ==> r == y
    ensures x.Ok? && y.Ok? ==> r == Ok(x.value + y.value)
  {
    match x
    case Err(f) => Err(f)
    case Ok(cx) =>
      match y
      case Err(f) => Err(f)
      case Ok(cy) => Ok(cx + cy)
  }

  lemma JoinAssociative(x: Result<seq<Call>, JsonFault>, y: Result<seq<Call>, JsonFault>, z: Result<seq<Call>, JsonFault>)
    ensures Join(x, Join(y, z)) == Join(Join(x, y), z)
  {
    if x.Ok? && y.Ok? && z.Ok? {
      assert x.value + (y.value + z.value) == (x.value + y.value) + z.value;
    }
  }

  /** One step of the walk over a `tool_calls` array. */
  lemma CallsFromToolCallsCons(parse: Parser, items: seq<Json>)
    requires |items| > 0
    ensures CallsFromToolCalls(parse, items) == Join(CallFrom(parse, FunctionOf(items[0])), CallsFromToolCalls(parse, items[1..]))
  {
  }

  /** Calls keep array order across a split of `tool_calls`: two runs of
      elements yield the calls of the first followed by those of the second,
      and a fault in the first run wins over one in the second. */
  lemma {:induction false} CallsFromToolCallsAppend(parse: Parser, a: seq<Json>, b: seq<Json>)
    ensures CallsFromToolCalls(parse, a + b) == Join(CallsFromToolCalls(parse, a), CallsFromToolCalls(parse, b))
    decreases |a|
  {
    if |a| > 0 {
      var tail := a[1..];
      assert (a + b)[0] == a[0];
      assert (a + b)[1..] == tail + b;
      CallsFromToolCallsAppend(parse, tail, b);
      CallsFromToolCallsCons(parse, a);
      CallsFromToolCallsCons(parse, a + b);
      JoinAssociative(CallFrom(parse, FunctionOf(a[0])), CallsFromToolCalls(parse, tail), CallsFromToolCalls(parse, b));
    } else {
      assert a + b == b;
      var r2 := CallsFromToolCalls(parse, b);
      if r2.Ok? {
        assert [] + r2.value == r2.value;
      }
    }
  }

  /** One element contributes exactly what its call description yields. */
  lemma CallsFromToolCallsSingleton(parse: Parser, e: Json)
    ensures CallsFromToolCalls(parse, [e]) == CallFrom(parse, FunctionOf(e))
  {
    assert [e][1..] == [];
    var r := CallFrom(parse, FunctionOf(e));
    if r.Ok? {
      assert r.value + [] == r.value;
    }
  }

  /** An element whose description has a missing or empty name is skipped,
      and the elements after it are still read. */
  lemma ElementSkipped(parse: Parser, before: seq<Json>, e: Json, after: seq<Json>)
    requires FunctionOf(e).Obj?
    requires Field(FunctionOf(e), "name") == None || Field(FunctionOf(e), "name") == Some(Str(""))
    ensures CallsFromToolCalls(parse, before + [e] + after) == CallsFromToolCalls(parse, before + after)
  {
    CallsFromToolCallsAppend(parse, before + [e], after);
    CallsFromToolCallsAppend(parse, before, [e]);
    CallsFromToolCallsAppend(parse, before, after);
    CallsFromToolCallsSingleton(parse, e);
    var rb := CallsFromToolCalls(parse, before);
    if rb.Ok? {
      assert rb.value + [] == rb.value;
    }
  }

  /** The call description of a chat-completion element, and the fields it carries. */
  lemma ElementFields(name: string, argText: string)
    ensures FunctionOf(ToolCallElement(name, argText)) == CallObject(name, argText)
    ensures Field(CallObject(name, argText), "name") == Some(Str(name))
    ensures Field(CallObject(name, argText), "arguments") == Some(Str(argText))
  {
    var ms := CallObject(name, argText).members;
    assert Lookup(ToolCallElement(name, argText).members, "function") == Some(CallObject(name, argText));
    assert ms[1..] == [Member("name", Str(name))];
    assert "arguments" != "name" by { assert |"arguments"| != |"name"|; }
    assert Lookup(ms[1..], "name") == Some(Str(name));
  }

  /** A `tool_calls` array whose first element names no tool yields only
      the call of the second element. */
  lemma EmptyNameSkipped(parse: Parser, skippedArgs: string, name: string, argText: string)
    requires name != ""
    ensures CallsFromToolCalls(parse, [ToolCallElement("", skippedArgs), ToolCallElement(name, argText)])
      == Ok([ExpectedCall(parse, name, argText)])
  {
    var skipped := ToolCallElement("", skippedArgs);
    var kept := ToolCallElement(name, argText);
    ElementFields("", skippedArgs);
    ElementSkipped(parse, [], skipped, [kept]);
    assert [] + [skipped] + [kept] == [skipped, kept];
    assert [] + [kept] == [kept];
    CallsFromToolCallsSingleton(parse, kept);
    ToolCallElementCall(parse, name, argText);
  }

  /** A message carrying both fields requests its `tool_calls` calls first
      and its `function_call` call last, although the library keeps
      `function_call` ahead of `tool_calls` in member order. */
  lemma ModernThenLegacy(parse: Parser, names: seq<string>, argTexts: seq<string>, legacyName: string, legacyArgs: string)
    requires |names| == |argTexts|
    requires forall i :: 0 <= i < |names| ==> names[i] != ""
    requires legacyName != ""
    ensures var items := seq(|names|, i requires 0 <= i < |names| => ToolCallElement(names[i], argTexts[i]));
      var node := Obj([Member("function_call", CallObject(legacyName, legacyArgs)), Member("tool_calls", Arr(items))]);
      DiscoverCalls(parse, ChatResponse(node))
        == Ok(seq(|names|, i requires 0 <= i < |names| => ExpectedCall(parse, names[i], argTexts[i]))
              + [ExpectedCall(parse, legacyName, legacyArgs)])
  {
    var items := seq(|names|, i requires 0 <= i < |names| => ToolCallElement(names[i], argTexts[i]));
    var calls := seq(|names|, i requires 0 <= i < |names| => ExpectedCall(parse, names[i], argTexts[i]));
    var node := Obj([Member("function_call", CallObject(legacyName, legacyArgs)), Member("tool_calls", Arr(items))]);
    forall i | 0 <= i < |items|
      ensures CallFrom(parse, FunctionOf(items[i])) == Ok([calls[i]])
    {
      ToolCallElementCall(parse, names[i], argTexts[i]);
    }
    OneCallEach(parse, items, calls);
    CallObjectCall(parse, legacyName, legacyArgs);
    assert "function_call" != "tool_calls";
    assert node.members[1..] == [Member("tool_calls", Arr(items))];
    assert Lookup(node.members[1..], "tool_calls") == Some(Arr(items));
    assert Field(node, "tool_calls") == Some(Arr(items));
    assert Field(node, "function_call") == Some(CallObject(legacyName, legacyArgs));
    ChatResponseEntry(node);
    SingleEntry(parse, Obj([Member("message", node)]));
  }

  /** A choice carrying both a `message` and a `delta` is read through its
      `message`; the calls under `delta` are ignored. */
  lemma MessageWinsOverDelta(parse: Parser, message: Json, delta: Json)
    ensures var choice := Obj([Member("delta", delta), Member("message", message)]);
      DiscoverCalls(parse, Obj([Member("choices", Arr([choice]))])) == CollectToolCallsFromNode(parse, message)
  {
    var choice := Obj([Member("delta", delta), Member("message", message)]);
    var doc := Obj([Member("choices", Arr([choice]))]);
    assert Lookup(doc.members, "choices") == Some(Arr([choice]));
    assert "delta" != "message";
    assert choice.members[1..] == [Member("message", message)];
    assert Lookup(choice.members[1..], "message") == Some(message);
    assert Field(choice, "message") == Some(message);
    SingleEntry(parse, choice);
  }

  /** Entries that are not objects (strings, numbers, nested arrays) carry
      no message and request nothing. */
  lemma {:induction false} NonObjectEntries(parse: Parser, entries: seq<Json>)
    requires forall k :: 0 <= k < |entries| ==> !entries[k].Obj?
    ensures CollectFromEntries(parse, entries) == Ok([])
    decreases |entries|
  {
    if |entries| > 0 {
      assert !entries[0].Obj?;
      assert CollectToolCallsFromNode(parse, PickMessageLike(entries[0])) == Ok([]);
      NonObjectEntries(parse, entries[1..]);
      var none: seq<Call> := [];
      assert none + none == none;
    }
  }

  /** A scalar document, an array of non-objects, and a `choices` that is
      null all request no calls. */
  lemma NothingToDiscover(parse: Parser, doc: Json)
    requires !doc.Obj? || Field(doc, "choices") == Some(Null)
    requires doc.Arr? ==> forall k :: 0 <= k < |doc.items| ==> !doc.items[k].Obj?
    ensures DiscoverCalls(parse, doc) == Ok([])
  {
    if doc.Obj? {
      assert Entries(doc) == [];
    } else {
      NonObjectEntries(parse, Entries(doc));
    }
  }

  /** Arguments that arrive as a JSON object or array, rather than as text,
      reach the call unchanged; text arguments arrive parsed
      (`ChatCompletionCalls`). */
  lemma StructuredArgumentsKept(parse: Parser, name: string, args: Json)
    requires name != ""
    requires args.Obj? || args.Arr?
    ensures var func := Obj([Member("arguments", args), Member("name", Str(name))]);
      DiscoverCalls(parse, ChatResponse(Obj([Member("tool_calls", Arr([Obj([Member("function", func)])]))])))
        == Ok([Call(name, args)])
  {
    var func := Obj([Member("arguments", args), Member("name", Str(name))]);
    var elem := Obj([Member("function", func)]);
    var message := Obj([Member("tool_calls", Arr([elem]))]);
    assert Lookup(elem.members, "function") == Some(func);
    assert "arguments" != "name" by { assert |"arguments"| != |"name"|; }
    assert func.members[1..] == [Member("name", Str(name))];
    assert Lookup(func.members[1..], "name") == Some(Str(name));
    assert Field(func, "name") == Some(Str(name));
    assert Field(func, "arguments") == Some(args);
    assert CallFrom(parse, FunctionOf(elem)) == Ok([Call(name, args)]);
    OneCallEach(parse, [elem], [Call(name, args)]);
    ChatResponseEntry(message);
    assert Lookup(message.members, "tool_calls") == Some(Arr([elem]));
    SingleEntry(parse, Obj([Member("message", message)]));
  }
}
