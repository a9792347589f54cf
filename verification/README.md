# llama-cpp-tools: tool registry and tool-call pipeline, in Dafny

This project models the core of llama-cpp-tools, a C++ library that
registers tools (a name, a JSON schema and a handler) and then finds and
runs the tool calls an OpenAI-style chat-completion response asks for. The
model covers these parts:

- **The registry** (`ToolRegistry` in `include/llama_cpp_tools/tool_registry.h`).
  It holds a handler map and a schema map. `register_tool` is first-wins.
  `invoke` looks a tool up and fails with "Tool not found: <name>". `schemas()` and
  `tools_for_openai()` list the schemas in name order.
- **Call discovery.** The response is normalised to a list of entries. Each
  entry is reduced to a message-like node with `pick_message_like`. The
  `tool_calls` and legacy `function_call` fields are read with
  `collect_tool_calls_from_node`, and arguments are normalised with
  `parse_function_arguments`.
- **Batch execution** (`process_remote_response_and_execute`). Each call's
  outcome, or the message of what it threw, goes into its own
  `ExecutionResult` slot. The sequential and concurrent branches are
  modelled separately and proved to give the same result.
- **The streaming extractor** (`extract_complete_json_values`). It is a
  string- and escape-aware scanner that cuts complete top-level `{…}`/`[…]`
  values out of a growing buffer.
- **The streaming driver** (`process_streaming_response_and_execute`). It
  feeds chunks into the buffer, cuts out values, parses them leniently,
  executes them and sends the results to a sink.
- **The single-call path** (`handle_tool_call_response`).

`json::parse` is a parameter `parse: string -> Option<Json>`, where None is a
parse error. A handler is a function value from the argument JSON to an
`Outcome`: a returned value, a thrown `std::exception` with its `what()`, or
something else thrown. JSON values are an immutable datatype. An object is
its member list, in the library's iteration order.

The modules are:

- `JsonValue`: the JSON value, nlohmann's `contains`/`value()`/range-for behaviour.
- `JsonExtractor`: the extractor.
- `Ordering`: `std::string` ordering, the key order of `std::map`.
- `ToolRegistry`: the registry.
- `CallDiscovery`: call discovery.
- `Execution`: the batch path.
- `Streaming`: the streaming driver.
- `SingleCall`: the single-call path.
- `Wrappers`: `Option` and `Result`.

The library's faults are modelled rather than excluded. `value("name", "")`
raises on a non-object, or on a name that is not a string. In the batch path
that becomes an `Err` of the whole discovery. The streaming driver swallows
it, so that value yields nothing. The single-call path raises it to its
caller.

A handler that throws a `std::exception` whose `what()` is empty produces an
`ExecutionResult` with an empty `error` although the call failed.
`Execution.Execute` states exactly when `error` is empty: the tool returned,
or it threw with an empty message.

## Model

| member | source | states |
|---|---|---|
| JsonValue.Iterate | src/tool_registry.cpp:164 | a range-for over a JSON value visits an array's items, an object's member values, nothing for null, and any other scalar once |
| JsonValue.ValueString | src/tool_registry.cpp:70 | `value(key, default)` read as a string gives the default when the key is absent; it raises when the value is not an object or the member is not a string; a success is exactly the member's string |
| JsonExtractor.SkipToOpener | src/tool_registry.cpp:103 | the skip loop stops at the first `{` or `[` at or after the start, or at the end of the buffer, and passes over no opener |
| JsonExtractor.ScanValue | src/tool_registry.cpp:106-137 | the scan from an opener reports the first position at which the depth of that opener's own kind returns to zero, with strings and escapes honoured; the character there is the matching closer; there is no result when the buffer ends first |
| JsonExtractor.CutNext | src/tool_registry.cpp:101-141 | one round of the outer loop either cuts the next complete value together with all the filler before it, or reports that nothing is complete and keeps the buffer whole |
| JsonExtractor.ExtractCompleteJsonValues | src/tool_registry.cpp:98-144 | the values returned and the buffer left are those of the reference extraction; every value is complete; the buffer left is a suffix of the input and nothing more can be cut from it |
| JsonExtractor.Decomposition | src/tool_registry.cpp:129-132 | the input equals the erased prefixes, one per value, followed by the remaining buffer, so the extractor only ever deletes prefixes |
| JsonExtractor.PiecesEndInValues | src/tool_registry.cpp:103-131 | each erased prefix is opener-free filler followed by exactly the value cut from it, and that value is complete |
| JsonExtractor.CutIsComplete | src/tool_registry.cpp:124-130 | a value that is cut starts with an opener and ends at the first closer that brings its depth back to zero |
| JsonExtractor.ExtractIdempotent | src/tool_registry.cpp:140-141 | extracting again from the buffer left behind yields nothing and changes nothing |
| JsonExtractor.NoCut | src/tool_registry.cpp:104 | a buffer with no opener, or with only an unfinished value, yields nothing and is kept byte for byte |
| JsonExtractor.NextValueAppend | src/tool_registry.cpp:114-133 | appending bytes does not move a value that is already complete |
| JsonExtractor.ExtractAppend | src/tool_registry.cpp:98-144 | extraction from `b + c` cuts the values of `b`, then the values of what `b` left followed by `c`; this is the basis of chunk-boundary independence |
| JsonExtractor.ExtractProperties | src/tool_registry.cpp:98-144 | every extraction returns complete values and keeps a suffix of the buffer from which nothing more can be cut |
| JsonExtractor.StringAwareExample | src/tool_registry.cpp:117-123 | a `}` inside a string does not close the object: `{"}"}[` yields `{"}"}` and keeps `[` |
| JsonExtractor.EscapedQuoteExample | src/tool_registry.cpp:118-120 | an escaped quote does not end a string: `["\"]"]` is one value |
| JsonExtractor.OwnKindExample | src/tool_registry.cpp:124-125 | only the opener's own kind is counted, so `[{]` is one complete array |
| JsonExtractor.FillerExample | src/tool_registry.cpp:131 | filler before a value is erased with it, and an unfinished value stays: `ok{}x{"` yields `{}` and keeps `x{"` |
| Ordering.BelowTotal | include/llama_cpp_tools/tool_registry.h:77-78 | of two different names one comes first in the map's key order |
| Ordering.BelowTransitive | include/llama_cpp_tools/tool_registry.h:77-78 | the map's key order is transitive |
| Ordering.BelowIrreflexive | include/llama_cpp_tools/tool_registry.h:77-78 | no name comes before itself |
| Ordering.LeastExists | include/llama_cpp_tools/tool_registry.h:77-78 | every non-empty set of names has a least one in the map's key order |
| Ordering.Sorted | include/llama_cpp_tools/tool_registry.h:77-78 | reference key order: the names of a set, each once, strictly ascending |
| Ordering.AscendingUnique | include/llama_cpp_tools/tool_registry.h:29-35 | there is only one ascending listing of a set of names, so the schema listing is determined by the registered names alone |
| ToolRegistry.Emplace | include/llama_cpp_tools/tool_registry.h:25-26 | `emplace` adds the key; a key already present keeps its value, a new key gets the given one, and every other key is untouched |
| ToolRegistry.RegisterTool | include/llama_cpp_tools/tool_registry.h:24-27 | registration adds the name to both maps; a name already present keeps its handler and schema; a new name gets the given ones; every other name is untouched |
| ToolRegistry.RegisterPreservesValid | include/llama_cpp_tools/tool_registry.h:77-78 | the handler map and the schema map keep one key set across a registration |
| ToolRegistry.RegisterExistingIsNoOp | include/llama_cpp_tools/tool_registry.h:25-26 | registering a name that is already present changes nothing |
| ToolRegistry.RegistrationsCommute | include/llama_cpp_tools/tool_registry.h:24-27 | registrations of different names can be reordered without changing the registry |
| ToolRegistry.RegisterAllValid | include/llama_cpp_tools/tool_registry.h:24-27 | after any run of registrations the two maps share one key set, and that key set is exactly the registered names |
| ToolRegistry.FirstRegistrationWins | include/llama_cpp_tools/tool_registry.h:25-26 | after any run of registrations a name maps to the handler and schema of its first registration |
| ToolRegistry.SpecSchema | include/llama_cpp_tools/tool_registry.h:52 | the schema built from a spec has exactly the keys `name`, `description` and `parameters`, holding the spec's name, description and parameters |
| ToolRegistry.RegisterToolSpec | include/llama_cpp_tools/tool_registry.h:51-54 | the spec's name becomes registered with the spec's handler and its built schema unless it was already taken; an already-registered name leaves the registry unchanged; other names keep their handlers |
| ToolRegistry.Invoke | include/llama_cpp_tools/tool_registry.h:37-41 | a registered name yields its handler's outcome on the arguments; an unregistered one raises "Tool not found: " followed by the name |
| ToolRegistry.InvokeConcurrent | src/tool_registry.cpp:7-12 | running the handler as an awaited task gives the same outcome as `invoke` |
| ToolRegistry.NamesInOrder | include/llama_cpp_tools/tool_registry.h:31 | walking the map visits each name once, in the reference key order |
| ToolRegistry.SchemasOf | include/llama_cpp_tools/tool_registry.h:31-33 | the listing holds, in order, the schema stored under each of the given names |
| ToolRegistry.Schemas | include/llama_cpp_tools/tool_registry.h:29-35 | one schema per registered name, the i-th being the schema of the i-th name in ascending order, whatever the order of registration |
| ToolRegistry.ToolsForOpenAI | include/llama_cpp_tools/tool_registry.h:45 | the same listing as `schemas()`: one schema per registered name, in ascending name order |
| CallDiscovery.ParseFunctionArguments | src/tool_registry.cpp:51-60 | absent arguments become `{}`; a string becomes its parse, or `{}` when it does not parse; an object or array is kept; any other value becomes `{}`; so a scalar can only arrive as the parse of argument text |
| CallDiscovery.CallFrom | src/tool_registry.cpp:69-73 | a description yields nothing when its name is missing or empty, one call with that name and the normalised arguments when the name is a non-empty string, and a fault exactly when it is not an object or its name is not a string |
| CallDiscovery.CallsFromToolCalls | src/tool_registry.cpp:67-75 | a `tool_calls` array yields at most one call per element, never one with an empty name |
| CallDiscovery.ToolCallsReadWithoutFault | src/tool_registry.cpp:68-74 | a `tool_calls` array is read without fault exactly when every element's call description is, so one unreadable name aborts the node |
| CallDiscovery.CallsFromToolCallsAppend | src/tool_registry.cpp:68-74 | elements are read in array order: a split array yields the calls of the first part followed by those of the second, and the first fault wins |
| CallDiscovery.FunctionOf | src/tool_registry.cpp:69 | an element's call description is its `function` member when it has one, and the element itself otherwise |
| CallDiscovery.CallsFromToolCallsSingleton | src/tool_registry.cpp:69-73 | an element contributes what its `function` member describes, or what the element itself describes when it has no `function` |
| CallDiscovery.ElementSkipped | src/tool_registry.cpp:70-73 | an element with a missing or empty name is skipped and the elements after it are still read |
| CallDiscovery.EmptyNameSkipped | src/tool_registry.cpp:68-74 | an array whose first element names no tool yields only the second element's call |
| CallDiscovery.CollectToolCallsFromNode | src/tool_registry.cpp:63-85 | a node yields its `tool_calls` calls followed by its `function_call` call; a `tool_calls` that is not an array and a `function_call` that is not an object are ignored; a fault in either part is a fault of the node; no call has an empty name |
| CallDiscovery.ModernThenLegacy | src/tool_registry.cpp:63-85 | a message carrying both fields yields its N `tool_calls` calls and then the `function_call` call, whatever the member order |
| CallDiscovery.PickMessageLike | src/tool_registry.cpp:88-94 | an entry with `message` is read through it, even when it also has `delta`; one with only `delta` through that; anything else, including every non-object, is read as it is |
| CallDiscovery.MessageWinsOverDelta | src/tool_registry.cpp:90-91 | a choice carrying both `message` and `delta` yields the calls of its `message` only |
| CallDiscovery.Entries | src/tool_registry.cpp:155-160 | the entries are a range-for over `choices` when the document has it, the items of an array document, and the document alone otherwise |
| CallDiscovery.CollectFromEntries | src/tool_registry.cpp:163-167 | the calls of a run of entries never have an empty name |
| CallDiscovery.EntriesReadWithoutFault | src/tool_registry.cpp:164-167 | a run of entries is read without fault exactly when every entry's message-like node is, so one faulting entry aborts the whole discovery |
| CallDiscovery.NonObjectEntries | src/tool_registry.cpp:88-94 | entries that are not objects request nothing |
| CallDiscovery.NothingToDiscover | src/tool_registry.cpp:155-167 | a scalar document, an array of non-objects, and a null `choices` request no calls |
| CallDiscovery.StructuredArgumentsKept | src/tool_registry.cpp:58 | arguments given as a JSON object or array reach the discovered call unchanged |
| CallDiscovery.OneCallEach | src/tool_registry.cpp:68-74 | when every `tool_calls` element describes one call, the array yields those calls in array order |
| CallDiscovery.CollectFromEntriesAppend | src/tool_registry.cpp:163-167 | calls accumulate in one list across entries, in global order, and a fault in any entry is a fault of the whole |
| CallDiscovery.DiscoverCalls | src/tool_registry.cpp:155-167 | every discovered call has a non-empty name |
| CallDiscovery.ChatCompletionCalls | src/tool_registry.cpp:155-167 | a chat-completion response with N named tool calls yields exactly those N calls in order, with string arguments parsed or replaced by `{}` |
| CallDiscovery.LegacyFunctionCall | src/tool_registry.cpp:77-84 | a response using the legacy `function_call` object yields exactly that one call |
| CallDiscovery.ShapesAgree | src/tool_registry.cpp:155-160 | a bare message, an array of choices holding it, and a response whose `choices` hold it all yield the same calls |
| Execution.Execute | src/tool_registry.cpp:174-185 | a result copies the call's name and arguments; it holds the returned value with an empty error on success; on failure it holds null and the thrown message, or "Unknown error invoking tool"; an unknown tool is reported as "Tool not found: <name>"; the error is empty exactly when the tool returned or threw with an empty message |
| Execution.ExecuteAll | src/tool_registry.cpp:170-187 | a batch has one result per call, in call order, each computed from its own call alone |
| Execution.ExecuteAllAppend | src/tool_registry.cpp:174-186 | the results of a concatenation of calls are the results of each part, one after the other |
| Execution.FailureIsIsolated | src/tool_registry.cpp:178-185 | a call whose handler throws, or whose tool is unknown, fills its own slot and changes nothing about the calls before or after it |
| Execution.ExecuteSequentially | src/tool_registry.cpp:173-187 | the sequential branch produces the reference batch |
| Execution.ExecuteConcurrently | src/tool_registry.cpp:190-213 | launching one task per call and joining them in launch order produces the reference batch, the same as the sequential branch |
| Execution.ExecuteBatch | src/tool_registry.cpp:170-213 | the batch has one result per call, in discovery order, whichever branch the `concurrent` flag selects |
| Execution.ProcessResponse | src/tool_registry.cpp:151-213 | a response yields results exactly when its calls can be read, one result per discovered call, each carrying that call's non-empty name and arguments |
| Execution.ProcessRemoteResponseAndExecute | src/tool_registry.cpp:151-214 | discovery followed by execution gives the same results whatever the value of `concurrent` |
| Execution.UnknownToolReported | src/tool_registry.cpp:178-181 | an unknown tool is reported in its own slot as "Tool not found: <name>" with a null result, and the batch carries on |
| Streaming.HandleBlob | src/tool_registry.cpp:233-239 | a value that does not parse, or whose calls cannot be read, sends nothing; otherwise it sends the results of the response it encodes |
| Streaming.HandleBlobsAppend | src/tool_registry.cpp:232-240 | results reach the sink in value order, then in batch order |
| Streaming.GarbageIsSkipped | src/tool_registry.cpp:237-239 | a value that fails to parse is dropped silently, and the values after it are still processed |
| Streaming.IncrementalIsWhole | src/tool_registry.cpp:225-241 | extracting after every chunk cuts exactly the values, and keeps exactly the buffer, that one extraction from the concatenated stream would |
| Streaming.FinalFlushIsEmpty | src/tool_registry.cpp:243-253 | the buffer kept after the last chunk holds nothing that can be cut, so the final flush sends nothing |
| Streaming.HandleOne | src/tool_registry.cpp:233-236 | parsing and executing one value sends what `HandleBlob` describes |
| Streaming.EmitBlobs | src/tool_registry.cpp:232-240 | the values of one round send their results in value order |
| Streaming.Round | src/tool_registry.cpp:226-240 | one round appends the chunk, cuts what the reference extraction cuts, keeps what it keeps, and sends those values' results |
| Streaming.ProcessStreamingResponse | src/tool_registry.cpp:217-254 | the sink receives the results of every complete value of the whole stream, in stream order, however the stream was cut into chunks |
| Streaming.WholeDocumentStream | src/tool_registry.cpp:225-253 | a stream that carries one complete response, chunked in any way, sends exactly that response's results |
| Streaming.WholeValueExtracted | src/tool_registry.cpp:127-135 | a buffer holding exactly one complete object or array is cut out whole, as one value |
| Streaming.StreamedToolCall | tests/tests.cpp:170-191 | a streamed response naming one tool, chunked in any way (five bytes at a time included), sends exactly one result, for that tool |
| SingleCall.SingleEntries | src/tool_registry.cpp:15-19 | an object with `choices` is walked through its choices; an object without them is the single choice; anything else is walked as a range-for (an array by its items, null as nothing, a scalar once) |
| SingleCall.MessageAsWritten | src/tool_registry.cpp:22-24 | the lookup finds a choice's `message` and nothing else, because the second test repeats the first |
| SingleCall.MessageIntended | src/tool_registry.cpp:22-24 | the corrected lookup finds `message`, and otherwise `delta` |
| SingleCall.FirstIn | src/tool_registry.cpp:29-31 | the inner loop stops at the first element that has a `function` member, skipping those without one |
| SingleCall.FirstFunction | src/tool_registry.cpp:21-38 | the loops find the first call description, in choice order and then element order, and find one exactly when some choice has one |
| SingleCall.OutcomeResult | src/tool_registry.cpp:35 | the caller receives the returned value, a `std::exception` with the thrown message, or a non-standard throw passed on as such |
| SingleCall.HandleWith | src/tool_registry.cpp:14-40 | with no call description the path raises "No tool call found in response"; otherwise it invokes the first description's name on its strictly parsed arguments, and raises the library's fault when the name or argument text cannot be read or the arguments do not parse |
| SingleCall.HandleToolCallResponse | src/tool_registry.cpp:39 | the path as written raises "No tool call found in response" when no choice's `message` has a call description; when a `message` has a readable description, it returns exactly what invoking the first one yields |
| SingleCall.HandleToolCallResponseIntended | src/tool_registry.cpp:23-39 | the corrected path raises "No tool call found in response" when neither a `message` nor a `delta` has a call description; otherwise, when the first description's name and argument text are readable and parse, it returns exactly what invoking that tool yields, whether the description came from `message` or from `delta` |
| SingleCall.DeltaNeverRead | src/tool_registry.cpp:23-24 | as written, a response whose only choice carries a `delta` raises "No tool call found in response", whatever the delta holds |
| SingleCall.DeltaIgnored | src/tool_registry.cpp:23-24 | as written, a response that carries its call under `delta` raises "No tool call found in response", while the batch path finds the call in the same document |
| SingleCall.BatchReadsDelta | src/tool_registry.cpp:88-94 | the batch path takes the calls of a choice that has only a `delta` from that delta |
| SingleCall.DeltaReadWhenIntended | src/tool_registry.cpp:22-26 | the corrected path invokes the tool carried under `delta` |
| SingleCall.IntendedAgreesWithoutDelta | src/tool_registry.cpp:22-24 | the correction changes nothing for choices that carry a `message`, or carry neither field |
| SingleCall.FirstOfBatch | src/tool_registry.cpp:28-35 | on a chat-completion response the path invokes the first call that batch discovery finds, and never looks at the later ones |
| SingleCall.StrictArguments | src/tool_registry.cpp:33-34 | argument text that does not parse raises here, where the batch path passes `{}` |
| SingleCall.EmptyNameInvoked | src/tool_registry.cpp:32-35 | an empty name is not skipped here: the tool "" is invoked and raises "Tool not found: ", while the batch path discovers no call |

## Left out

- The concurrency of `std::async` is left out: threads, futures and wall-clock timing (src/tool_registry.cpp:7-12, 190-213). The concurrent branch is modelled as a list of deferred tasks, all created and then joined in launch order. A failure to launch a thread is not modelled.
- `json::parse` is a parameter, not a JSON text parser. `dump()` and `tools_for_openai_string` are not modelled: serialisation is library code.
- Handler bodies are arbitrary function values. Exception classes are reduced to "a `std::exception` with this message" or "something else".
- The registration and parameter macros (include/llama_cpp_tools/tool_registry.h:81-124) are left out. Only the registration macros call `register_tool`. `LCT_REGISTER_TOOL` calls it on the registry it is given, and the static-registration macros call it on the global registry during static initialisation. The parameter macros `LCT_PARAMS_START` and `LCT_PARAM_INT`/`STRING`/`NUMBER`/`BOOL` do not call it: they build a static `parameters` schema object with `type`, `properties` and `required`, which `LCT_REGISTER_WITH_SCHEMA_FROM_PARAMS` then passes into the schema it registers.
- `global_registry` and the free functions `tool_registry` and `handle_tool_call_response` (include/llama_cpp_tools/tool_registry.h:128-133) are left out. `global_registry` returns one process-wide registry, and the two free functions forward to it. The registry they reach is the `Registry` value every operation takes, and its member `handle_tool_call_response` is modelled as `SingleCall.HandleToolCallResponse`.
- A sink that throws is not modelled. The driver's `catch (...)` would swallow the exception and drop the rest of that value's batch; the model's sink only receives.
- `get_chunk` is modelled as the sequence of chunks it delivers before it returns false. Whatever it writes on its final false call is ignored by the driver, and is absent from the model too.
- The extractor's `int depth` and `size_t` indices are unbounded integers. An overflow needs more than 2^31 nested openers and is not modelled.
- JSON numbers are opaque, so floating point is left out. An object is an ordered member list. The model does not enforce nlohmann's sorted, duplicate-free keys; lookups take the first member with a key.
- Bytes are characters. The extractor compares single characters only, so no encoding is modelled.

## Findings

| source | as written | input that shows it | evidently intended | confidence | as-written member | corrected member |
|---|---|---|---|---|---|---|
| src/tool_registry.cpp:23-24 | the fallback branch tests `contains("message")` again, so a choice's `delta` is never read | `{"choices":[{"delta":{"tool_calls":[{"function":{"arguments":"{}","name":"t"}}]}}]}`: SingleCall.DeltaIgnored proves the path raises "No tool call found in response", while the batch path finds the call | the second test reads `delta`, as `pick_message_like` does (src/tool_registry.cpp:90-91); SingleCall.DeltaReadWhenIntended proves the corrected path invokes the tool | medium; not executed | SingleCall.HandleToolCallResponse | SingleCall.HandleToolCallResponseIntended |
