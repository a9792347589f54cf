/** Batch execution with per-call error isolation
    (`process_remote_response_and_execute`): every discovered call is
    invoked, its outcome captured in an `ExecutionResult`, and the results
    returned in discovery order, whether the calls run one after another or
    as concurrently launched tasks joined in launch order. */
module Execution {
  import opened Wrappers
  import opened JsonValue
  import opened ToolRegistry
  import opened CallDiscovery

  /** `ToolRegistry::ExecutionResult`: `result` is meaningful only when
      `error` is empty; a failed call leaves it at its default, null. */
  datatype ExecutionResult = ExecutionResult(toolName: string, arguments: Json, result: Json, error: string)

  /** The message recorded for a handler that throws something that is not a `std::exception`. */
  const UnknownError: string := "Unknown error invoking tool"

  /** One call's result: `tool_name` and `arguments` copied from the call,
      the returned value on success, the exception's message on failure. */
  function Execute(reg: Registry, call: Call): (r: ExecutionResult)
    ensures r.toolName == call.name && r.arguments == call.args
    ensures Invoke(reg, call.name, call.args).Returned? ==>
      r.error == "" && r.result == Invoke(reg, call.name, call.args).value
    ensures !Invoke(reg, call.name, call.args).Returned? ==> r.result == Null
    ensures Invoke(reg, call.name, call.args).Threw? ==> r.error == Invoke(reg, call.name, call.args).what
    ensures Invoke(reg, call.name, call.args).ThrewNonStandard? ==> r.error == UnknownError
    ensures r.error == "" <==> Invoke(reg, call.name, call.args) in {Threw(""), Returned(r.result)}
    ensures call.name !in reg.tools ==> r.error == "Tool not found: " + call.name
  {
    var r := ExecutionResult(call.name, call.args, Null, "");
    match Invoke(reg, call.name, call.args)
    case Returned(v) => r.(result := v)
    case Threw(what) => r.(error := what)
    case ThrewNonStandard => r.(error := UnknownError)
  }

  /** Reference definition of a batch: the calls' results in order, each
      computed from its own call alone. */
  function ExecuteAll(reg: Registry, calls: seq<Call>): (r: seq<ExecutionResult>)
    ensures |r| == |calls|
    ensures forall i :: 0 <= i < |calls| ==> r[i] == Execute(reg, calls[i])
  {
    if |calls| == 0 then []
    else [Execute(reg, calls[0])] + ExecuteAll(reg, calls[1..])
  }

  /** A batch splits at any point: the results of a concatenation of calls
      are the results of each part, one after the other. */
  lemma ExecuteAllAppend(reg: Registry, a: seq<Call>, b: seq<Call>)
    ensures ExecuteAll(reg, a + b) == ExecuteAll(reg, a) + ExecuteAll(reg, b)
  {
    assert forall i :: 0 <= i < |a| ==> (a + b)[i] == a[i];
    assert forall i :: |a| <= i < |a| + |b| ==> (a + b)[i] == b[i - |a|];
  }

  /** Error isolation: a failing call (an unknown tool, a handler that
      throws) occupies its own slot and changes nothing about the calls
      before or after it. */
  lemma FailureIsIsolated(reg: Registry, before: seq<Call>, failing: Call, after: seq<Call>)
    requires !Invoke(reg, failing.name, failing.args).Returned?
    ensures ExecuteAll(reg, before + [failing] + after)
      == ExecuteAll(reg, before) + [Execute(reg, failing)] + ExecuteAll(reg, after)
  {
    ExecuteAllAppend(reg, before + [failing], after);
    ExecuteAllAppend(reg, before, [failing]);
  }

  /** The sequential branch: invoke each call in turn and append its result. */
  method ExecuteSequentially(reg: Registry, calls: seq<Call>) returns (results: seq<ExecutionResult>)
    ensures results == ExecuteAll(reg, calls)
  {
    results := [];
    var i := 0;
    while i < |calls|
      invariant 0 <= i <= |calls|
      invariant results == ExecuteAll(reg, calls[..i])
    {
      ExecuteAllAppend(reg, calls[..i], [calls[i]]);
      assert calls[..i + 1] == calls[..i] + [calls[i]];
      results := results + [Execute(reg, calls[i])];
      i := i + 1;
    }
    assert calls[..i] == calls;
  }

  /** A launched task: the deferred computation of one call's result. */
  type Task = () -> ExecutionResult

  /** The concurrent branch: launch one task per call, in discovery order,
      then wait for each task in launch order. */
  method ExecuteConcurrently(reg: Registry, calls: seq<Call>) returns (results: seq<ExecutionResult>)
    ensures results == ExecuteAll(reg, calls)
  {
    var tasks: seq<Task> := [];
    var i := 0;
    while i < |calls|
      invariant 0 <= i <= |calls|
      invariant |tasks| == i
      invariant forall k :: 0 <= k < i ==> tasks[k]() == Execute(reg, calls[k])
    {
      var call := calls[i];
      tasks := tasks + [() => Execute(reg, call)];
      i := i + 1;
    }
    results := [];
    var j := 0;
    while j < |tasks|
      invariant 0 <= j <= |tasks|
      invariant |results| == j
      invariant forall k :: 0 <= k < j ==> results[k] == Execute(reg, calls[k])
    {
      results := results + [tasks[j]()];
      j := j + 1;
    }
  }

  /** Step 2 of `process_remote_response_and_execute`: run the discovered
      calls, on the branch the `concurrent` flag selects. */
  method ExecuteBatch(reg: Registry, calls: seq<Call>, concurrent: bool) returns (results: seq<ExecutionResult>)
    ensures |results| == |calls|
    ensures forall i :: 0 <= i < |calls| ==> results[i] == Execute(reg, calls[i])
  {
    if concurrent {
      results := ExecuteConcurrently(reg, calls);
    } else {
      results := ExecuteSequentially(reg, calls);
    }
  }

  /** What a whole response yields: the results of every call it requests,
      or the library fault that stopped discovery. */
  function ProcessResponse(reg: Registry, parse: Parser, doc: Json): (r: Result<seq<ExecutionResult>, JsonFault>)
    ensures r.Ok? <==> DiscoverCalls(parse, doc).Ok?
    ensures r.Ok? ==> |r.value| == |DiscoverCalls(parse, doc).value|
    ensures r.Ok? ==> forall i :: 0 <= i < |r.value| ==>
      var call := DiscoverCalls(parse, doc).value[i];
      r.value[i].toolName == call.name && r.value[i].toolName != "" && r.value[i].arguments == call.args
  {
    var calls :- DiscoverCalls(parse, doc);
    Ok(ExecuteAll(reg, calls))
  }

  /** `process_remote_response_and_execute`: discover, then execute. The
      result does not depend on `concurrent`. */
  method ProcessRemoteResponseAndExecute(reg: Registry, parse: Parser, doc: Json, concurrent: bool)
    returns (r: Result<seq<ExecutionResult>, JsonFault>)
    ensures r == ProcessResponse(reg, parse, doc)
  {
    var discovered := DiscoverCalls(parse, doc);
    if discovered.Err? {
      return Err(discovered.error);
    }
    var results := ExecuteBatch(reg, discovered.value, concurrent);
    assert results == ExecuteAll(reg, discovered.value);
    return Ok(results);
  }

  /** An unknown tool is reported in its slot, not raised: the batch holds
      a "Tool not found" result for it and carries on. */
  lemma UnknownToolReported(reg: Registry, parse: Parser, doc: Json, i: nat)
    requires DiscoverCalls(parse, doc).Ok? && i < |DiscoverCalls(parse, doc).value|
    requires DiscoverCalls(parse, doc).value[i].name !in reg.tools
    ensures ProcessResponse(reg, parse, doc).Ok?
    ensures var name := DiscoverCalls(parse, doc).value[i].name;
      ProcessResponse(reg, parse, doc).value[i]
        == ExecutionResult(name, DiscoverCalls(parse, doc).value[i].args, Null, "Tool not found: " + name)
  {
  }
}
