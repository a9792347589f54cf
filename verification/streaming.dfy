/** The streaming driver (`process_streaming_response_and_execute`): chunks
    are appended to a buffer, complete JSON values are cut from it after
    every chunk, each value is parsed and executed as a whole response, and
    the results go to the sink in order. The sink is modelled as the
    sequence of results it receives; `get_chunk` as the sequence of chunks
    it delivers before it reports the end. */
module Streaming {
  import opened Wrappers
  import opened JsonValue
  import opened ToolRegistry
  import opened CallDiscovery
  import opened JsonExtractor
  import opened Execution

  /** What one cut-out value sends to the sink: the results of the response
      it encodes, or nothing when it does not parse or its calls cannot be
      read (the driver swallows every exception). */
  function HandleBlob(reg: Registry, parse: Parser, blob: string): (r: seq<ExecutionResult>)
    ensures parse(blob).None? ==> r == []
    ensures parse(blob).Some? && ProcessResponse(reg, parse, parse(blob).value).Ok? ==>
      r == ProcessResponse(reg, parse, parse(blob).value).value
    ensures parse(blob).Some? && ProcessResponse(reg, parse, parse(blob).value).Err? ==> r == []
  {
    match parse(blob)
    case None => []
    case Some(doc) =>
      match ProcessResponse(reg, parse, doc)
      case Ok(results) => results
      case Err(_) => []
  }

  /** The sink's view of a run of values: each value's results, value by value. */
  function HandleBlobs(reg: Registry, parse: Parser, blobs: seq<string>): seq<ExecutionResult> {
    if |blobs| == 0 then [] else HandleBlob(reg, parse, blobs[0]) + HandleBlobs(reg, parse, blobs[1..])
  }

  /** Results reach the sink in value order: a run of values splits anywhere. */
  lemma {:induction false} HandleBlobsAppend(reg: Registry, parse: Parser, a: seq<string>, b: seq<string>)
    ensures HandleBlobs(reg, parse, a + b) == HandleBlobs(reg, parse, a) + HandleBlobs(reg, parse, b)
    decreases |a|
  {
    if |a| == 0 {
      assert a + b == b;
    } else {
      assert (a + b)[0] == a[0];
      assert (a + b)[1..] == a[1..] + b;
      HandleBlobsAppend(reg, parse, a[1..], b);
      assert HandleBlob(reg, parse, a[0]) + (HandleBlobs(reg, parse, a[1..]) + HandleBlobs(reg, parse, b))
        == (HandleBlob(reg, parse, a[0]) + HandleBlobs(reg, parse, a[1..])) + HandleBlobs(reg, parse, b);
    }
  }

  /** A value that does not parse is dropped silently, and the values after
      it are still processed. */
  lemma GarbageIsSkipped(reg: Registry, parse: Parser, before: seq<string>, garbage: string, after: seq<string>)
    requires parse(garbage).None?
    ensures HandleBlobs(reg, parse, before + [garbage] + after)
      == HandleBlobs(reg, parse, before) + HandleBlobs(reg, parse, after)
  {
    HandleBlobsAppend(reg, parse, before + [garbage], after);
    HandleBlobsAppend(reg, parse, before, [garbage]);
    HandleBlobsSingleton(reg, parse, garbage);
    assert HandleBlobs(reg, parse, before) + [] == HandleBlobs(reg, parse, before);
  }

  lemma {:induction false} ConcatSnoc(ps: seq<string>, p: string)
    ensures Concat(ps + [p]) == Concat(ps) + p
    decreases |ps|
  {
    if |ps| == 0 {
      assert ps + [p] == [p];
      assert [p][1..] == [];
      assert p + "" == p;
    } else {
      assert (ps + [p])[0] == ps[0];
      assert (ps + [p])[1..] == ps[1..] + [p];
      ConcatSnoc(ps[1..], p);
      assert ps[0] + (Concat(ps[1..]) + p) == (ps[0] + Concat(ps[1..])) + p;
    }
  }

  /** What the driver has cut out after each chunk, and the buffer it keeps:
      the chunks are taken one at a time, each appended to the buffer left
      by the previous round before extracting. */
  function Incremental(chunks: seq<string>): Extraction {
    if |chunks| == 0 then Extraction([], "")
    else
      var prev := Incremental(chunks[..|chunks| - 1]);
      var next := Extract(prev.rest + chunks[|chunks| - 1]);
      Extraction(prev.values + next.values, next.rest)
  }

  lemma EmptyExtraction()
    ensures Extract("") == Extraction([], "")
  {
    assert FirstOpener("", 0) == 0;
  }

  /** Chunk-boundary independence: extracting after every chunk cuts out
      exactly the values, and keeps exactly the buffer, that one extraction
      from the whole concatenated stream would. */
  lemma {:induction false} IncrementalIsWhole(chunks: seq<string>)
    ensures Incremental(chunks) == Extract(Concat(chunks))
  {
    if |chunks| == 0 {
      EmptyExtraction();
    } else {
      var init := chunks[..|chunks| - 1];
      var last := chunks[|chunks| - 1];
      IncrementalIsWhole(init);
      assert chunks == init + [last];
      ConcatSnoc(init, last);
      ExtractAppend(Concat(init), last);
    }
  }

  /** The buffer the driver keeps between chunks never holds anything that
      can be cut, so the final flush after the last chunk emits nothing. */
  lemma FinalFlushIsEmpty(chunks: seq<string>)
    ensures Extract(Incremental(chunks).rest) == Extraction([], Incremental(chunks).rest)
  {
    IncrementalIsWhole(chunks);
    ExtractProperties(Concat(chunks));
  }

  /** Parse one cut-out value and execute it as a response; a value that
      does not parse, or whose calls cannot be read, yields nothing. */
  method HandleOne(reg: Registry, parse: Parser, blob: string, concurrent: bool)
    returns (batch: seq<ExecutionResult>)
    ensures batch == HandleBlob(reg, parse, blob)
  {
    batch := [];
    var doc := parse(blob);
    if doc.Some? {
      var processed := ProcessRemoteResponseAndExecute(reg, parse, doc.value, concurrent);
      if processed.Ok? {
        batch := processed.value;
      }
    }
  }

  lemma HandleBlobsSingleton(reg: Registry, parse: Parser, blob: string)
    ensures HandleBlobs(reg, parse, [blob]) == HandleBlob(reg, parse, blob)
  {
    assert [blob][1..] == [];
    var h := HandleBlob(reg, parse, blob);
    assert h + [] == h;
  }

  lemma HandleBlobsSnoc(reg: Registry, parse: Parser, blobs: seq<string>, i: nat)
    requires i < |blobs|
    ensures HandleBlobs(reg, parse, blobs[..i + 1]) == HandleBlobs(reg, parse, blobs[..i]) + HandleBlob(reg, parse, blobs[i])
  {
    assert blobs[..i + 1] == blobs[..i] + [blobs[i]];
    HandleBlobsAppend(reg, parse, blobs[..i], [blobs[i]]);
    HandleBlobsSingleton(reg, parse, blobs[i]);
  }

  /** Send each value's results to the sink, value by value. */
  method EmitBlobs(reg: Registry, parse: Parser, blobs: seq<string>, concurrent: bool)
    returns (sent: seq<ExecutionResult>)
    ensures sent == HandleBlobs(reg, parse, blobs)
  {
    sent := [];
    var i := 0;
    while i < |blobs|
      invariant 0 <= i <= |blobs|
      invariant sent == HandleBlobs(reg, parse, blobs[..i])
    {
      var batch := HandleOne(reg, parse, blobs[i], concurrent);
      HandleBlobsSnoc(reg, parse, blobs, i);
      sent := sent + batch;
      i := i + 1;
    }
    assert blobs[..i] == blobs;
  }

  /** One round of the driver: append the chunk, cut out what is complete, send its results. */
  method Round(reg: Registry, parse: Parser, buffer: string, chunk: string, concurrent: bool)
    returns (sent: seq<ExecutionResult>, blobs: seq<string>, remaining: string)
    ensures Extract(buffer + chunk) == Extraction(blobs, remaining)
    ensures sent == HandleBlobs(reg, parse, blobs)
  {
    blobs, remaining := ExtractCompleteJsonValues(buffer + chunk);
    sent := EmitBlobs(reg, parse, blobs, concurrent);
  }

  /** `process_streaming_response_and_execute`: the sink receives the
      results of every complete value of the whole stream, in stream order,
      however the stream was cut into chunks. */
  method ProcessStreamingResponse(reg: Registry, parse: Parser, chunks: seq<string>, concurrent: bool)
    returns (sink: seq<ExecutionResult>)
    ensures sink == HandleBlobs(reg, parse, Extract(Concat(chunks)).values)
  {
    var buffer := "";
    sink := [];
    ghost var seen: seq<string> := [];
    var k := 0;
    while k < |chunks|
      invariant 0 <= k <= |chunks|
      invariant Incremental(chunks[..k]) == Extraction(seen, buffer)
      invariant sink == HandleBlobs(reg, parse, seen)
    {
      var sent, blobs, remaining := Round(reg, parse, buffer, chunks[k], concurrent);
      assert chunks[..k + 1][..k] == chunks[..k];
      HandleBlobsAppend(reg, parse, seen, blobs);
      sink := sink + sent;
      seen := seen + blobs;
      buffer := remaining;
      k := k + 1;
    }
    assert chunks[..k] == chunks;
    FinalFlushIsEmpty(chunks);
    // final flush
    var blobs, remaining := ExtractCompleteJsonValues(buffer);
    var sent := EmitBlobs(reg, parse, blobs, concurrent);
    assert seen + blobs == seen;
    HandleBlobsAppend(reg, parse, seen, blobs);
    sink := sink + sent;
    IncrementalIsWhole(chunks);
  }

  /** A stream carrying one complete response, cut into chunks in any way,
      sends exactly that response's results to the sink. */
  lemma WholeDocumentStream(reg: Registry, parse: Parser, chunks: seq<string>, doc: Json)
    requires Complete(Concat(chunks))
    requires parse(Concat(chunks)) == Some(doc)
    requires DiscoverCalls(parse, doc).Ok?
    ensures HandleBlobs(reg, parse, Extract(Concat(chunks)).values) == ProcessResponse(reg, parse, doc).value
  {
    WholeValueExtracted(Concat(chunks));
    HandleBlobsSingleton(reg, parse, Concat(chunks));
  }

  /** A buffer holding exactly one complete value is cut out whole. */
  lemma WholeValueExtracted(text: string)
    requires Complete(text)
    ensures Extract(text).values == [text]
  {
    assert FirstOpener(text, 0) == 0;
    CutStep(text, 0, |text| - 1);
    assert text[|text|..] == "";
    assert text[0..|text|] == text;
    EmptyExtraction();
  }

  /** The streamed chat completion: a single response naming one tool,
      however it is chunked, yields exactly one result, for that tool. */
  lemma StreamedToolCall(reg: Registry, parse: Parser, chunks: seq<string>, name: string, argText: string)
    requires name != ""
    requires Complete(Concat(chunks))
    requires parse(Concat(chunks)) == Some(ChatResponse(Obj([Member("tool_calls", Arr([ToolCallElement(name, argText)]))])))
    ensures HandleBlobs(reg, parse, Extract(Concat(chunks)).values) == [Execute(reg, ExpectedCall(parse, name, argText))]
  {
    var doc := ChatResponse(Obj([Member("tool_calls", Arr([ToolCallElement(name, argText)]))]));
    ChatCompletionCalls(parse, [name], [argText]);
    assert seq(1, i requires 0 <= i < 1 => ToolCallElement([name][i], [argText][i])) == [ToolCallElement(name, argText)];
    assert seq(1, i requires 0 <= i < 1 => ExpectedCall(parse, [name][i], [argText][i])) == [ExpectedCall(parse, name, argText)];
    WholeDocumentStream(reg, parse, chunks, doc);
  }
}
