/** The single-call path (`handle_tool_call_response`): find the first
    `tool_calls` element that carries a `function`, parse its arguments
    strictly, invoke that one tool and return what it returns, raising when
    anything goes wrong. */
module SingleCall {
  import opened Wrappers
  import opened JsonValue
  import opened ToolRegistry
  import opened CallDiscovery

  /** Why the single-call path raised instead of returning. */
  datatype Fault =
    | Raised(what: string)            // a `std::exception` with this message
    | RaisedNonStandard               // a handler threw something else
    | LibraryFault(fault: JsonFault)  // the JSON library rejected the document or the arguments

  const NoToolCall: string := "No tool call found in response"

  /** The choices the path walks: the `choices` of an object that has them,
      the object itself when it has none, and a range-for over anything else. */
  function SingleEntries(doc: Json): (r: seq<Json>)
    ensures doc.Obj? && !Has(doc, "choices") ==> r == [doc]
    ensures doc.Obj? && Has(doc, "choices") ==> r == Iterate(Field(doc, "choices").value)
    ensures doc.Arr? ==> r == doc.items
    ensures !doc.Obj? ==> r == Iterate(doc)
  {
    if doc.Obj? then
      if Has(doc, "choices") then Iterate(Field(doc, "choices").value) else Iterate(Arr([doc]))
    else Iterate(doc)
  }

  /** The message of a choice as the code looks it up: `message` is looked for
      twice, so a choice that only has a `delta` has no message. */
  function MessageAsWritten(choice: Json): (r: Option<Json>)
    ensures r == Field(choice, "message")
  {
    if Has(choice, "message") then Field(choice, "message")
    else if Has(choice, "message") then Field(choice, "message")
    else None
  }

  /** The evidently intended lookup, the one the batch path makes: `message`,
      else `delta`. */
  function MessageIntended(choice: Json): (r: Option<Json>)
    ensures Has(choice, "message") ==> r == Field(choice, "message")
    ensures !Has(choice, "message") ==> r == Field(choice, "delta")
  {
    if Has(choice, "message") then Field(choice, "message")
    else if Has(choice, "delta") then Field(choice, "delta")
    else None
  }

  function MessageOf(choice: Json, readDelta: bool): Option<Json> {
    if readDelta then MessageIntended(choice) else MessageAsWritten(choice)
  }

  /** Reference definition: the `function` members of a `tool_calls` array,
      in order, skipping elements that have none. */
  function FunctionsIn(items: seq<Json>): (r: seq<Json>)
    ensures |r| <= |items|
  {
    if |items| == 0 then []
    else (if Has(items[0], "function") then [Field(items[0], "function").value] else []) + FunctionsIn(items[1..])
  }

  /** Reference definition: every candidate call description of every choice, in order. */
  function AllFunctions(entries: seq<Json>, readDelta: bool): seq<Json> {
    if |entries| == 0 then []
    else
      var here := match MessageOf(entries[0], readDelta)
        case Some(m) => (match Field(m, "tool_calls") case Some(Arr(items)) => FunctionsIn(items) case _ => [])
        case None => [];
      here + AllFunctions(entries[1..], readDelta)
  }

  /** The inner loop: the first element with a `function` member. */
  function FirstIn(items: seq<Json>): (r: Option<Json>)
    ensures r.Some? <==> |FunctionsIn(items)| > 0
    ensures r.Some? ==> r.value == FunctionsIn(items)[0]
  {
    if |items| == 0 then None
    else if Has(items[0], "function") then Field(items[0], "function")
    else FirstIn(items[1..])
  }

  /** The outer loop: the first choice whose message yields a call description. */
  function FirstFunction(entries: seq<Json>, readDelta: bool): (r: Option<Json>)
    ensures r.Some? <==> |AllFunctions(entries, readDelta)| > 0
    ensures r.Some? ==> r.value == AllFunctions(entries, readDelta)[0]
  {
    if |entries| == 0 then None
    else
      var found := match MessageOf(entries[0], readDelta)
        case Some(m) => (match Field(m, "tool_calls") case Some(Arr(items)) => FirstIn(items) case _ => None)
        case None => None;
      if found.Some? then found else FirstFunction(entries[1..], readDelta)
  }

  /** What the caller sees of one invocation: the value, or what was thrown. */
  function OutcomeResult(o: Outcome): (r: Result<Json, Fault>)
    ensures r.Ok? <==> o.Returned?
    ensures o.Returned? ==> r.value == o.value
    ensures o.Threw? ==> r == Err(Raised(o.what))
    ensures o.ThrewNonStandard? ==> r == Err(RaisedNonStandard)
  {
    match o
    case Returned(v) => Ok(v)
    case Threw(what) => Err(Raised(what))
    case ThrewNonStandard => Err(RaisedNonStandard)
  }

  function Lift<T>(r: Result<T, JsonFault>): Result<T, Fault> {
    match r
    case Ok(v) => Ok(v)
    case Err(f) => Err(LibraryFault(f))
  }

  /** The path with either message lookup: the first call description is
      read with `value()` (name default "", arguments default "{}"), its
      argument text parsed strictly, and the tool invoked. */
  function HandleWith(reg: Registry, parse: Parser, doc: Json, readDelta: bool): (r: Result<Json, Fault>)
    ensures AllFunctions(SingleEntries(doc), readDelta) == [] ==> r == Err(Raised(NoToolCall))
    ensures var fs := AllFunctions(SingleEntries(doc), readDelta);
      |fs| > 0 && ValueString(fs[0], "name", "").Ok? && ValueString(fs[0], "arguments", "{}").Ok?
        && parse(ValueString(fs[0], "arguments", "{}").value).Some? ==>
      r == OutcomeResult(Invoke(reg, ValueString(fs[0], "name", "").value, parse(ValueString(fs[0], "arguments", "{}").value).value))
    ensures var fs := AllFunctions(SingleEntries(doc), readDelta);
      |fs| > 0 && ValueString(fs[0], "name", "").Ok? && ValueString(fs[0], "arguments", "{}").Ok?
        && parse(ValueString(fs[0], "arguments", "{}").value).None? ==>
      r == Err(LibraryFault(ParseError))
    ensures var fs := AllFunctions(SingleEntries(doc), readDelta);
      |fs| > 0 && ValueString(fs[0], "name", "").Err? ==> r == Err(LibraryFault(ValueString(fs[0], "name", "").error))
    ensures var fs := AllFunctions(SingleEntries(doc), readDelta);
      |fs| > 0 && ValueString(fs[0], "name", "").Ok? && ValueString(fs[0], "arguments", "{}").Err? ==>
      r == Err(LibraryFault(ValueString(fs[0], "arguments", "{}").error))
  {
    match FirstFunction(SingleEntries(doc), readDelta)
    case None => Err(Raised(NoToolCall))
    case Some(func) =>
      var name :- Lift(ValueString(func, "name", ""));
      var argText :- Lift(ValueString(func, "arguments", "{}"));
      match parse(argText)
      case None => Err(LibraryFault(ParseError))
      case Some(args) => OutcomeResult(Invoke(reg, name, args))
  }

  /** `handle_tool_call_response` as written. */
  function HandleToolCallResponse(reg: Registry, parse: Parser, doc: Json): (r: Result<Json, Fault>)
    ensures AllFunctions(SingleEntries(doc), false) == [] ==> r == Err(Raised(NoToolCall))
    ensures var fs := AllFunctions(SingleEntries(doc), false);
      |fs| > 0 && ValueString(fs[0], "name", "").Ok? && ValueString(fs[0], "arguments", "{}").Ok?
        && parse(ValueString(fs[0], "arguments", "{}").value).Some? ==>
      r == OutcomeResult(Invoke(reg, ValueString(fs[0], "name", "").value, parse(ValueString(fs[0], "arguments", "{}").value).value))
  {
    HandleWith(reg, parse, doc, false)
  }

  /** `handle_tool_call_response` with the second test reading `delta`. */
  function HandleToolCallResponseIntended(reg: Registry, parse: Parser, doc: Json): (r: Result<Json, Fault>)
    ensures AllFunctions(SingleEntries(doc), true) == [] ==> r == Err(Raised(NoToolCall))
    ensures var fs := AllFunctions(SingleEntries(doc), true);
      |fs| > 0 && ValueString(fs[0], "name", "").Ok? && ValueString(fs[0], "arguments", "{}").Ok?
        && parse(ValueString(fs[0], "arguments", "{}").value).Some? ==>
      r == OutcomeResult(Invoke(reg, ValueString(fs[0], "name", "").value, parse(ValueString(fs[0], "arguments", "{}").value).value))
  {
    HandleWith(reg, parse, doc, true)
  }

  /** A streamed chat-completion chunk: `{"choices": [{"delta": <delta>}]}`. */
  function DeltaResponse(delta: Json): Json {
    Obj([Member("choices", Arr([Obj([Member("delta", delta)])]))])
  }

  lemma DeltaResponseEntry(delta: Json)
    ensures SingleEntries(DeltaResponse(delta)) == [Obj([Member("delta", delta)])]
    ensures Entries(DeltaResponse(delta)) == [Obj([Member("delta", delta)])]
    ensures MessageAsWritten(Obj([Member("delta", delta)])) == None
    ensures MessageIntended(Obj([Member("delta", delta)])) == Some(delta)
    ensures PickMessageLike(Obj([Member("delta", delta)])) == delta
  {
    assert Lookup(DeltaResponse(delta).members, "choices") == Some(Arr([Obj([Member("delta", delta)])]));
    assert "delta" != "message" by { assert |"delta"| != |"message"|; }
    assert Lookup([Member("delta", delta)], "delta") == Some(delta);
  }

  lemma SingleEntryFunctions(choice: Json, readDelta: bool)
    ensures AllFunctions([choice], readDelta) ==
      match MessageOf(choice, readDelta)
      case Some(m) => (match Field(m, "tool_calls") case Some(Arr(items)) => FunctionsIn(items) case _ => [])
      case None => []
  {
    assert [choice][1..] == [];
    var here := match MessageOf(choice, readDelta)
      case Some(m) => (match Field(m, "tool_calls") case Some(Arr(items)) => FunctionsIn(items) case _ => [])
      case None => [];
    assert here + [] == here;
  }

  /** As written, the path never reads `delta`: a response whose only choice
      carries a `delta` raises "No tool call found", whatever the delta holds. */
  lemma DeltaNeverRead(reg: Registry, parse: Parser, delta: Json)
    ensures HandleToolCallResponse(reg, parse, DeltaResponse(delta)) == Err(Raised(NoToolCall))
  {
    DeltaResponseEntry(delta);
    SingleEntryFunctions(Obj([Member("delta", delta)]), false);
  }

  /** The path as written misses a call carried under `delta` that the batch
      path finds in the very same document. */
  lemma DeltaIgnored(reg: Registry, parse: Parser, name: string, argText: string)
    requires name != ""
    ensures var delta := Obj([Member("tool_calls", Arr([ToolCallElement(name, argText)]))]);
      HandleToolCallResponse(reg, parse, DeltaResponse(delta)) == Err(Raised(NoToolCall))
      && DiscoverCalls(parse, DeltaResponse(delta)) == Ok([ExpectedCall(parse, name, argText)])
  {
    var delta := Obj([Member("tool_calls", Arr([ToolCallElement(name, argText)]))]);
    DeltaNeverRead(reg, parse, delta);
    BatchReadsDelta(parse, name, argText);
  }

  /** The batch path finds a call carried under `delta`. */
  lemma BatchReadsDelta(parse: Parser, name: string, argText: string)
    requires name != ""
    ensures var delta := Obj([Member("tool_calls", Arr([ToolCallElement(name, argText)]))]);
      DiscoverCalls(parse, DeltaResponse(delta)) == Ok([ExpectedCall(parse, name, argText)])
  {
    var delta := Obj([Member("tool_calls", Arr([ToolCallElement(name, argText)]))]);
    DeltaResponseEntry(delta);
    SingleEntry(parse, Obj([Member("delta", delta)]));
    SingleElementCalls(parse, delta, name, argText);
  }

  /** A message whose `tool_calls` holds one well-formed element requests that one call. */
  lemma SingleElementCalls(parse: Parser, message: Json, name: string, argText: string)
    requires name != ""
    requires message == Obj([Member("tool_calls", Arr([ToolCallElement(name, argText)]))])
    ensures CollectToolCallsFromNode(parse, message) == Ok([ExpectedCall(parse, name, argText)])
  {
    ToolCallElementCall(parse, name, argText);
    OneCallEach(parse, [ToolCallElement(name, argText)], [ExpectedCall(parse, name, argText)]);
    assert Lookup(message.members, "tool_calls") == Some(Arr([ToolCallElement(name, argText)]));
    assert Field(message, "function_call") == None;
    assert [ExpectedCall(parse, name, argText)] + [] == [ExpectedCall(parse, name, argText)];
  }

  lemma CallObjectFields(name: string, argText: string)
    ensures ValueString(CallObject(name, argText), "name", "") == Ok(name)
    ensures ValueString(CallObject(name, argText), "arguments", "{}") == Ok(argText)
    ensures Field(ToolCallElement(name, argText), "function") == Some(CallObject(name, argText))
  {
    var ms := CallObject(name, argText).members;
    assert ms[1..] == [Member("name", Str(name))];
    assert "arguments" != "name" by { assert |"arguments"| != |"name"|; }
    assert Lookup(ms[1..], "name") == Some(Str(name));
    assert Lookup(ToolCallElement(name, argText).members, "function") == Some(CallObject(name, argText));
  }

  /** With `delta` read, the same streamed chunk invokes the tool it names. */
  lemma DeltaReadWhenIntended(reg: Registry, parse: Parser, name: string, argText: string, args: Json)
    requires parse(argText) == Some(args)
    ensures var delta := Obj([Member("tool_calls", Arr([ToolCallElement(name, argText)]))]);
      HandleToolCallResponseIntended(reg, parse, DeltaResponse(delta)) == OutcomeResult(Invoke(reg, name, args))
  {
    var delta := Obj([Member("tool_calls", Arr([ToolCallElement(name, argText)]))]);
    DeltaResponseEntry(delta);
    SingleEntryFunctions(Obj([Member("delta", delta)]), true);
    CallObjectFields(name, argText);
    assert Lookup(delta.members, "tool_calls") == Some(Arr([ToolCallElement(name, argText)]));
    assert [ToolCallElement(name, argText)][1..] == [];
    assert FunctionsIn([ToolCallElement(name, argText)]) == [CallObject(name, argText)];
  }

  /** Reading `delta` changes nothing for choices that carry a `message`, or
      that carry neither: the correction only adds the delta case. */
  lemma {:induction false} IntendedAgreesWithoutDelta(entries: seq<Json>)
    requires forall i :: 0 <= i < |entries| ==> Has(entries[i], "message") || !Has(entries[i], "delta")
    ensures AllFunctions(entries, true) == AllFunctions(entries, false)
  {
    if |entries| > 0 {
      assert MessageOf(entries[0], true) == MessageOf(entries[0], false);
      IntendedAgreesWithoutDelta(entries[1..]);
    }
  }

  /** On a chat-completion response the path invokes the first call the
      batch path would discover, provided its argument text parses; later
      calls are never looked at. */
  lemma FirstOfBatch(reg: Registry, parse: Parser, names: seq<string>, argTexts: seq<string>)
    requires |names| == |argTexts| > 0
    requires forall i :: 0 <= i < |names| ==> names[i] != ""
    requires parse(argTexts[0]).Some?
    ensures var items := seq(|names|, i requires 0 <= i < |names| => ToolCallElement(names[i], argTexts[i]));
      var doc := ChatResponse(Obj([Member("tool_calls", Arr(items))]));
      DiscoverCalls(parse, doc).Ok? && |DiscoverCalls(parse, doc).value| == |names|
      && DiscoverCalls(parse, doc).value[0] == Call(names[0], parse(argTexts[0]).value)
      && HandleToolCallResponse(reg, parse, doc) == OutcomeResult(Invoke(reg, names[0], parse(argTexts[0]).value))
  {
    var items := seq(|names|, i requires 0 <= i < |names| => ToolCallElement(names[i], argTexts[i]));
    var message := Obj([Member("tool_calls", Arr(items))]);
    var doc := ChatResponse(message);
    var choice := Obj([Member("message", message)]);
    ChatCompletionCalls(parse, names, argTexts);
    ChatResponseEntry(message);
    assert Lookup(doc.members, "choices") == Some(Arr([choice]));
    assert SingleEntries(doc) == [choice];
    SingleEntryFunctions(choice, false);
    assert Lookup(message.members, "tool_calls") == Some(Arr(items));
    CallObjectFields(names[0], argTexts[0]);
    assert items[0] == ToolCallElement(names[0], argTexts[0]);
    assert FunctionsIn(items)[0] == CallObject(names[0], argTexts[0]);
  }

  /** Arguments are parsed strictly here: text that does not parse raises,
      where the batch path would pass `{}` to the tool. */
  lemma StrictArguments(reg: Registry, parse: Parser, name: string, argText: string)
    requires name != "" && parse(argText).None?
    ensures var doc := ChatResponse(Obj([Member("tool_calls", Arr([ToolCallElement(name, argText)]))]));
      HandleToolCallResponse(reg, parse, doc) == Err(LibraryFault(ParseError))
      && DiscoverCalls(parse, doc) == Ok([Call(name, EmptyObject)])
  {
    var message := Obj([Member("tool_calls", Arr([ToolCallElement(name, argText)]))]);
    FirstOfBatchShape(parse, name, argText);
    ChatResponseEntry(message);
    SingleEntry(parse, Obj([Member("message", message)]));
    SingleElementCalls(parse, message, name, argText);
  }

  lemma FirstOfBatchShape(parse: Parser, name: string, argText: string)
    ensures var doc := ChatResponse(Obj([Member("tool_calls", Arr([ToolCallElement(name, argText)]))]));
      AllFunctions(SingleEntries(doc), false) == [CallObject(name, argText)]
    ensures ValueString(CallObject(name, argText), "name", "") == Ok(name)
    ensures ValueString(CallObject(name, argText), "arguments", "{}") == Ok(argText)
  {
    var message := Obj([Member("tool_calls", Arr([ToolCallElement(name, argText)]))]);
    var doc := ChatResponse(message);
    var choice := Obj([Member("message", message)]);
    ChatResponseEntry(message);
    assert Lookup(doc.members, "choices") == Some(Arr([choice]));
    assert SingleEntries(doc) == [choice];
    SingleEntryFunctions(choice, false);
    assert Lookup(message.members, "tool_calls") == Some(Arr([ToolCallElement(name, argText)]));
    CallObjectFields(name, argText);
    assert [ToolCallElement(name, argText)][1..] == [];
  }

  /** An empty name is not skipped here: the path invokes the tool "", which
      raises "Tool not found: " unless such a tool is registered. */
  lemma EmptyNameInvoked(reg: Registry, parse: Parser, argText: string, args: Json)
    requires parse(argText) == Some(args) && "" !in reg.tools
    ensures var doc := ChatResponse(Obj([Member("tool_calls", Arr([ToolCallElement("", argText)]))]));
      HandleToolCallResponse(reg, parse, doc) == Err(Raised("Tool not found: "))
      && DiscoverCalls(parse, doc) == Ok([])
  {
    var message := Obj([Member("tool_calls", Arr([ToolCallElement("", argText)]))]);
    FirstOfBatchShape(parse, "", argText);
    ChatResponseEntry(message);
    SingleEntry(parse, Obj([Member("message", message)]));
    assert Lookup(message.members, "tool_calls") == Some(Arr([ToolCallElement("", argText)]));
    assert Field(message, "function_call") == None;
    CallObjectFields("", argText);
    assert [ToolCallElement("", argText)][1..] == [];
    assert CallFrom(parse, CallObject("", argText)) == Ok([]);
    assert FunctionOf(ToolCallElement("", argText)) == CallObject("", argText);
    assert CallsFromToolCalls(parse, [ToolCallElement("", argText)]) == Ok([] + []);
    assert CollectToolCallsFromNode(parse, message) == Ok([] + []);
    assert "Tool not found: " + "" == "Tool not found: ";
  }
}
