/** The string- and escape-aware scanner that cuts complete top-level JSON
    objects or arrays off the front of a streaming buffer
    (`extract_complete_json_values`). */
module JsonExtractor {
  import opened Wrappers

  predicate IsOpener(c: char) {
    c == '{' || c == '['
  }

  /** The closer the scanner counts against an opener; only this pair moves the depth. */
  function CloserOf(opener: char): char {
    if opener == '{' then '}' else ']'
  }

  /** The scanner's state while it walks one candidate value. Outside a string
      `escape` is always false. */
  datatype Scan = Scan(depth: int, inString: bool, escape: bool)

  const Initial: Scan := Scan(0, false, false)

  /** Reading `c` in state `st` is the closer that brings the depth back to zero. */
  predicate Closes(st: Scan, c: char, opener: char) {
    !st.inString && c != '"' && c != opener && c == CloserOf(opener) && st.depth - 1 == 0
  }

  /** One character of the scan, when it does not close the value. */
  function Step(st: Scan, c: char, opener: char): Scan {
    if st.inString then
      if st.escape then st.(escape := false)
      else if c == '\\' then st.(escape := true)
      else if c == '"' then st.(inString := false)
      else st
    else if c == '"' then st.(inString := true)
    else if c == opener then st.(depth := st.depth + 1)
    else if c == CloserOf(opener) then st.(depth := st.depth - 1)
    else st
  }

  /** Scanning `b` from index `i` in state `st`: the index of the closing
      delimiter, or None when the buffer ends first. */
  function MatchEnd(b: string, i: nat, st: Scan, opener: char): (r: Option<nat>)
    decreases |b| - i
    ensures r.Some? ==> i <= r.value < |b|
  {
    if i >= |b| then None
    else if Closes(st, b[i], opener) then Some(i)
    else MatchEnd(b, i + 1, Step(st, b[i], opener), opener)
  }

  /** The first index at or after `i` holding an opener, or |b| when there is none. */
  function FirstOpener(b: string, i: nat): (r: nat)
    requires i <= |b|
    decreases |b| - i
    ensures i <= r <= |b|
    ensures r < |b| ==> IsOpener(b[r])
    ensures forall k :: i <= k < r ==> !IsOpener(b[k])
  {
    if i == |b| || IsOpener(b[i]) then i else FirstOpener(b, i + 1)
  }

  /** Where the next complete value lies: its opener and its closer. */
  datatype Span = Span(start: nat, end: nat)

  /** The span the extractor cuts next, or None when there is no opener or
      the value after the first opener is unfinished. */
  function NextValue(b: string): (r: Option<Span>)
    ensures r.Some? ==> r.value.start <= r.value.end < |b| && IsOpener(b[r.value.start])
  {
    var s := FirstOpener(b, 0);
    if s == |b| then None
    else match MatchEnd(b, s, Initial, b[s])
      case None => None
      case Some(e) => Some(Span(s, e))
  }

  /** What one extraction produces: the complete values, in order, and the
      buffer left behind. */
  datatype Extraction = Extraction(values: seq<string>, rest: string)

  /** Reference definition of the extractor: cut the next complete value and
      everything before it, and repeat; stop, removing nothing more, at a
      buffer with no opener or with an unfinished value. */
  function Extract(b: string): Extraction
    decreases |b|
  {
    match NextValue(b)
    case None => Extraction([], b)
    case Some(sp) =>
      var tail := Extract(b[sp.end + 1..]);
      Extraction([b[sp.start..sp.end + 1]] + tail.values, tail.rest)
  }

  /** A complete value as the scanner sees it: it starts with an opener and its
      last character is the first one at which the depth returns to zero. */
  predicate Complete(v: string) {
    |v| > 0 && IsOpener(v[0]) && MatchEnd(v, 0, Initial, v[0]) == Some(|v| - 1)
  }

  /** No character of `s` is an opener. */
  predicate NoOpener(s: string) {
    forall j :: 0 <= j < |s| ==> !IsOpener(s[j])
  }

  /** `value` is what remains of `piece` once the filler in front of its first
      opener is dropped. */
  predicate SplitsAs(piece: string, value: string) {
    |value| <= |piece| && piece[|piece| - |value|..] == value && NoOpener(piece[..|piece| - |value|])
  }

  function Concat(ps: seq<string>): string {
    if |ps| == 0 then "" else ps[0] + Concat(ps[1..])
  }

  /** The prefixes the extractor erases, one per extracted value, each running
      from the buffer's start at that moment to the value's closer. */
  ghost function Pieces(b: string): seq<string>
    decreases |b|
  {
    match NextValue(b)
    case None => []
    case Some(sp) => [b[..sp.end + 1]] + Pieces(b[sp.end + 1..])
  }

  lemma SplitAt(b: string, k: nat)
    requires k <= |b|
    ensures b[..k] + b[k..] == b
  {
  }

  lemma ConcatCons(piece: string, ps: seq<string>, rest: string, t: string, b: string)
    requires Concat(ps) + rest == t && b == piece + t
    ensures Concat([piece] + ps) + rest == b
  {
    assert ([piece] + ps)[1..] == ps;
  }

  /** The scan of a closed value reads nothing past its closer: any other
      buffer holding the same characters from the start to the closer closes
      at the same relative position. */
  lemma {:induction false} MatchEndTransfer(b: string, i: nat, b2: string, i2: nat, st: Scan, opener: char)
    requires MatchEnd(b, i, st, opener).Some?
    requires var e := MatchEnd(b, i, st, opener).value;
      i2 + (e - i) < |b2| && b2[i2..i2 + (e - i) + 1] == b[i..e + 1]
    ensures MatchEnd(b2, i2, st, opener) == Some(i2 + (MatchEnd(b, i, st, opener).value - i))
    decreases |b| - i
  {
    var e := MatchEnd(b, i, st, opener).value;
    assert b2[i2] == b2[i2..i2 + (e - i) + 1][0] == b[i..e + 1][0] == b[i];
    if !Closes(st, b[i], opener) {
      var st' := Step(st, b[i], opener);
      assert b2[i2 + 1..i2 + 1 + (e - (i + 1)) + 1] == b2[i2..i2 + (e - i) + 1][1..];
      assert b[i + 1..e + 1] == b[i..e + 1][1..];
      MatchEndTransfer(b, i + 1, b2, i2 + 1, st', opener);
    }
  }

  /** The span the extractor cuts, from an opener to its matching closer, is a complete value. */
  lemma CutIsComplete(b: string)
    requires NextValue(b).Some?
    ensures Complete(b[NextValue(b).value.start..NextValue(b).value.end + 1])
  {
    var sp := NextValue(b).value;
    var v := b[sp.start..sp.end + 1];
    MatchEndTransfer(b, sp.start, v, 0, Initial, b[sp.start]);
    assert v[0] == b[sp.start];
  }

  /** The extractor only ever deletes prefixes: the buffer is the erased pieces,
      one per extracted value, followed by what is left. */
  lemma {:induction false} Decomposition(b: string)
    ensures |Pieces(b)| == |Extract(b).values|
    ensures Concat(Pieces(b)) + Extract(b).rest == b
    decreases |b|
  {
    if NextValue(b).Some? {
      var sp := NextValue(b).value;
      var t := b[sp.end + 1..];
      Decomposition(t);
      SplitAt(b, sp.end + 1);
      ConcatCons(b[..sp.end + 1], Pieces(t), Extract(t).rest, t, b);
    }
  }

  /** Each extracted value is a complete value that ends its piece, preceded
      only by filler without an opener. */
  lemma {:induction false} PiecesEndInValues(b: string)
    ensures |Pieces(b)| == |Extract(b).values|
    ensures forall k :: 0 <= k < |Extract(b).values| ==>
      Complete(Extract(b).values[k]) && SplitsAs(Pieces(b)[k], Extract(b).values[k])
    decreases |b|
  {
    if NextValue(b).Some? {
      var sp := NextValue(b).value;
      var t := b[sp.end + 1..];
      PiecesEndInValues(t);
      var v := b[sp.start..sp.end + 1];
      var piece := b[..sp.end + 1];
      CutIsComplete(b);
      assert piece[|piece| - |v|..] == v;
      assert piece[..|piece| - |v|] == b[..sp.start];
      var vs := Extract(b).values;
      var ps := Pieces(b);
      forall k | 0 <= k < |vs|
        ensures Complete(vs[k]) && SplitsAs(ps[k], vs[k])
      {
        if k > 0 {
          assert vs[k] == Extract(t).values[k - 1];
          assert ps[k] == Pieces(t)[k - 1];
        }
      }
    }
  }

  /** What the extractor leaves behind is a fixed point: extracting again
      without new data yields nothing and changes nothing. */
  lemma {:induction false} ExtractIdempotent(b: string)
    ensures Extract(Extract(b).rest) == Extraction([], Extract(b).rest)
    decreases |b|
  {
    if NextValue(b).Some? {
      ExtractIdempotent(b[NextValue(b).value.end + 1..]);
    }
  }

  /** Appending bytes cannot move an opener that is already present. */
  lemma {:induction false} FirstOpenerAppend(b: string, c: string, i: nat)
    requires i <= |b|
    requires FirstOpener(b, i) < |b|
    ensures FirstOpener(b + c, i) == FirstOpener(b, i)
    decreases |b| - i
  {
    assert (b + c)[i] == b[i];
    if !IsOpener(b[i]) {
      FirstOpenerAppend(b, c, i + 1);
    }
  }

  /** Appending bytes cannot change a value that is already complete. */
  lemma NextValueAppend(b: string, c: string)
    requires NextValue(b).Some?
    ensures NextValue(b + c) == NextValue(b)
  {
    var sp := NextValue(b).value;
    FirstOpenerAppend(b, c, 0);
    assert (b + c)[sp.start] == b[sp.start];
    assert (b + c)[sp.start..sp.end + 1] == b[sp.start..sp.end + 1];
    MatchEndTransfer(b, sp.start, b + c, sp.start, Initial, b[sp.start]);
  }

  /** Extraction is chunk-boundary independent: extracting from `b + c` yields
      the values extracted from `b`, then those extracted from what `b` left
      behind with `c` appended, and ends with the same remainder. */
  lemma {:induction false} ExtractAppend(b: string, c: string)
    ensures var first := Extract(b);
      var second := Extract(first.rest + c);
      Extract(b + c) == Extraction(first.values + second.values, second.rest)
    decreases |b|
  {
    if NextValue(b).Some? {
      var t := b[NextValue(b).value.end + 1..];
      ExtractAppend(t, c);
      ExtractAppendStep(b, c);
    }
  }

  /** The inductive step of ExtractAppend: one value cut from the front. */
  lemma ExtractAppendStep(b: string, c: string)
    requires NextValue(b).Some?
    requires var t := b[NextValue(b).value.end + 1..];
      Extract(t + c) == Extraction(Extract(t).values + Extract(Extract(t).rest + c).values, Extract(Extract(t).rest + c).rest)
    ensures Extract(b + c) == Extraction(Extract(b).values + Extract(Extract(b).rest + c).values, Extract(Extract(b).rest + c).rest)
  {
    var sp := NextValue(b).value;
    var t := b[sp.end + 1..];
    NextValueAppend(b, c);
    assert (b + c)[sp.start..sp.end + 1] == b[sp.start..sp.end + 1];
    assert (b + c)[sp.end + 1..] == t + c;
    var v := b[sp.start..sp.end + 1];
    var xt := Extract(t);
    var second := Extract(xt.rest + c);
    assert [v] + (xt.values + second.values) == ([v] + xt.values) + second.values;
  }

  /** The first inner loop of `extract_complete_json_values`: advance to the
      next `{` or `[`, or to the end of the buffer. */
  method SkipToOpener(buf: string, from: nat) returns (i: nat)
    requires from <= |buf|
    ensures i == FirstOpener(buf, from)
    ensures from <= i <= |buf| && (i < |buf| ==> IsOpener(buf[i]))
    ensures forall k :: from <= k < i ==> !IsOpener(buf[k])
  {
    i := from;
    while i < |buf| && buf[i] != '{' && buf[i] != '['
      invariant from <= i <= |buf|
      invariant FirstOpener(buf, i) == FirstOpener(buf, from)
    {
      i := i + 1;
    }
  }

  /** The second inner loop of `extract_complete_json_values`: from the opener at
      `start`, track depth of that opener's kind and the string/escape state,
      and report the index of the closer at which the depth returns to zero,
      or None when the buffer ends first. */
  method ScanValue(buf: string, start: nat) returns (end: Option<nat>)
    requires start < |buf| && IsOpener(buf[start])
    ensures end == MatchEnd(buf, start, Initial, buf[start])
    ensures end.Some? ==> start < end.value < |buf| && buf[end.value] == CloserOf(buf[start])
  {
    var opener := buf[start];
    var closer := if opener == '{' then '}' else ']';
    var depth := 0;
    var inString := false;
    var escape := false;
    var i := start;
    while i < |buf|
      invariant start <= i <= |buf|
      invariant closer == CloserOf(opener)
      invariant i > start ==> depth > 0
      invariant i == start ==> Scan(depth, inString, escape) == Initial
      invariant MatchEnd(buf, start, Initial, opener) == MatchEnd(buf, i, Scan(depth, inString, escape), opener)
    {
      var c := buf[i];
      ScanStep(buf, i, Scan(depth, inString, escape), opener);
      if inString {
        if escape {
          escape := false;
        } else if c == '\\' {
          escape := true;
        } else if c == '"' {
          inString := false;
        }
      } else {
        if c == '"' {
          inString := true;
        } else if c == opener {
          depth := depth + 1;
        } else if c == closer {
          depth := depth - 1;
          if depth == 0 {
            return Some(i);
          }
        }
      }
      i := i + 1;
    }
    return None;
  }

  /** One round of `extract_complete_json_values`: skip to the next opener,
      scan to its closer, and cut the value out together with everything in
      front of it; or report that nothing can be cut, leaving the buffer whole. */
  method CutNext(buf: string) returns (value: Option<string>, tail: string)
    ensures value.None? ==> tail == buf && NextValue(buf).None?
    ensures value.Some? ==>
      && NextValue(buf).Some?
      && value.value == buf[NextValue(buf).value.start..NextValue(buf).value.end + 1]
      && tail == buf[NextValue(buf).value.end + 1..]
  {
    var start := SkipToOpener(buf, 0);
    if start >= |buf| {
      return None, buf;
    }
    var end := ScanValue(buf, start);
    if end.None? {
      // the value is unfinished: wait for more data
      return None, buf;
    }
    return Some(buf[start..end.value + 1]), buf[end.value + 1..];
  }

  /** `extract_complete_json_values`: the values it cuts, in order, and the
      buffer it leaves behind, which nothing further can be cut from until
      more bytes arrive. */
  method ExtractCompleteJsonValues(buffer: string) returns (values: seq<string>, remaining: string)
    ensures Extraction(values, remaining) == Extract(buffer)
    ensures forall k :: 0 <= k < |values| ==> Complete(values[k])
    ensures |remaining| <= |buffer| && buffer[|buffer| - |remaining|..] == remaining
    ensures Extract(remaining) == Extraction([], remaining)
  {
    remaining := buffer;
    values := [];
    var done := false;
    while !done
      invariant Extract(buffer) == Extraction(values + Extract(remaining).values, Extract(remaining).rest)
      invariant done ==> Extract(remaining) == Extraction([], remaining)
      decreases |remaining|, !done
    {
      var value, tail := CutNext(remaining);
      if value.None? {
        done := true;
      } else {
        assert Extract(remaining) == Extraction([value.value] + Extract(tail).values, Extract(tail).rest);
        Regroup(values, value.value, Extract(tail).values);
        values := values + [value.value];
        remaining := tail;
      }
    }
    assert values + [] == values;
    ExtractProperties(buffer);
  }

  lemma Regroup(values: seq<string>, v: string, later: seq<string>)
    ensures values + ([v] + later) == (values + [v]) + later
  {
  }

  /** The properties every extraction has: complete values, a remainder that
      is a suffix of the buffer, and a remainder that is a fixed point. */
  lemma ExtractProperties(b: string)
    ensures forall k :: 0 <= k < |Extract(b).values| ==> Complete(Extract(b).values[k])
    ensures |Extract(b).rest| <= |b| && b[|b| - |Extract(b).rest|..] == Extract(b).rest
    ensures Extract(Extract(b).rest) == Extraction([], Extract(b).rest)
  {
    ExtractIdempotent(b);
    PiecesEndInValues(b);
    Decomposition(b);
    SuffixOfConcat(Concat(Pieces(b)), Extract(b).rest, b);
  }

  lemma ScanStep(b: string, i: nat, st: Scan, opener: char)
    requires i < |b|
    ensures !Closes(st, b[i], opener) ==> MatchEnd(b, i, st, opener) == MatchEnd(b, i + 1, Step(st, b[i], opener), opener)
    ensures Closes(st, b[i], opener) ==> MatchEnd(b, i, st, opener) == Some(i)
  {
  }

  /** One round of the extractor, cutting the value from `start` to `end`. */
  lemma CutStep(b: string, start: nat, end: nat)
    requires start == FirstOpener(b, 0) < |b| && MatchEnd(b, start, Initial, b[start]) == Some(end)
    ensures end < |b|
    ensures Extract(b) == Extraction([b[start..end + 1]] + Extract(b[end + 1..]).values, Extract(b[end + 1..]).rest)
  {
  }

  /** A buffer with no opener, or with only an unfinished value, yields nothing and is kept whole. */
  lemma NoCut(b: string)
    requires FirstOpener(b, 0) == |b| || MatchEnd(b, FirstOpener(b, 0), Initial, b[FirstOpener(b, 0)]).None?
    ensures Extract(b) == Extraction([], b)
  {
  }

  lemma SuffixOfConcat(p: string, r: string, b: string)
    requires p + r == b
    ensures |r| <= |b| && b[|b| - |r|..] == r
  {
    assert b[|p|..] == r;
  }

  /** A closing brace inside a string does not end the object; the opener that follows stays in the buffer. */
  lemma StringAwareExample()
    ensures Extract("{\"}\"}[") == Extraction(["{\"}\"}"], "[")
  {
    var b0 := "{\"}\"}[";
    assert FirstOpener(b0, 0) == 0;
    assert MatchEnd(b0, 4, Scan(1, false, false), '{') == Some(4);
    assert MatchEnd(b0, 3, Scan(1, true, false), '{') == Some(4);
    assert MatchEnd(b0, 2, Scan(1, true, false), '{') == Some(4);
    assert MatchEnd(b0, 1, Scan(1, false, false), '{') == Some(4);
    assert MatchEnd(b0, 0, Scan(0, false, false), '{') == Some(4);
    assert NextValue(b0) == Some(Span(0, 4));
    assert b0[0..5] == "{\"}\"}";
    assert b0[5..] == "[";
    var b1 := "[";
    assert FirstOpener(b1, 0) == 0;
    assert MatchEnd(b1, 1, Scan(1, false, false), '[') == None;
    assert MatchEnd(b1, 0, Scan(0, false, false), '[') == None;
    assert Extract(b1) == Extraction([], b1);
    assert Extract(b0) == Extraction(["{\"}\"}"], "[");
  }

  /** An escaped quote does not end a string, so the bracket after it is still string content. */
  lemma EscapedQuoteExample()
    ensures Extract("[\"\\\"]\"]") == Extraction(["[\"\\\"]\"]"], "")
  {
    var b0 := "[\"\\\"]\"]";
    assert FirstOpener(b0, 0) == 0;
    assert MatchEnd(b0, 6, Scan(1, false, false), '[') == Some(6);
    assert MatchEnd(b0, 5, Scan(1, true, false), '[') == Some(6);
    assert MatchEnd(b0, 4, Scan(1, true, false), '[') == Some(6);
    assert MatchEnd(b0, 3, Scan(1, true, true), '[') == Some(6);
    assert MatchEnd(b0, 2, Scan(1, true, false), '[') == Some(6);
    assert MatchEnd(b0, 1, Scan(1, false, false), '[') == Some(6);
    assert MatchEnd(b0, 0, Scan(0, false, false), '[') == Some(6);
    assert NextValue(b0) == Some(Span(0, 6));
    assert b0[0..7] == "[\"\\\"]\"]";
    assert b0[7..] == "";
    var b1 := "";
    assert FirstOpener(b1, 0) == 0;
    assert Extract(b1) == Extraction([], b1);
    assert Extract(b0) == Extraction(["[\"\\\"]\"]"], "");
  }

  /** Only the opener's own kind moves the depth: a brace inside an array is not counted. */
  lemma OwnKindExample()
    ensures Extract("[{]") == Extraction(["[{]"], "")
  {
    var b0 := "[{]";
    assert FirstOpener(b0, 0) == 0;
    assert MatchEnd(b0, 2, Scan(1, false, false), '[') == Some(2);
    assert MatchEnd(b0, 1, Scan(1, false, false), '[') == Some(2);
    assert MatchEnd(b0, 0, Scan(0, false, false), '[') == Some(2);
    assert NextValue(b0) == Some(Span(0, 2));
    assert b0[0..3] == "[{]";
    assert b0[3..] == "";
    var b1 := "";
    assert FirstOpener(b1, 0) == 0;
    assert Extract(b1) == Extraction([], b1);
    assert Extract(b0) == Extraction(["[{]"], "");
  }

  /** Filler before a value is erased with it; an unfinished value after it is kept whole. */
  lemma FillerExample()
    ensures Extract("ok{}x{\"") == Extraction(["{}"], "x{\"")
  {
    var b0 := "ok{}x{\"";
    assert FirstOpener(b0, 2) == 2;
    assert FirstOpener(b0, 1) == 2;
    assert FirstOpener(b0, 0) == 2;
    assert MatchEnd(b0, 3, Scan(1, false, false), '{') == Some(3);
    assert MatchEnd(b0, 2, Scan(0, false, false), '{') == Some(3);
    assert NextValue(b0) == Some(Span(2, 3));
    assert b0[2..4] == "{}";
    assert b0[4..] == "x{\"";
    var b1 := "x{\"";
    assert FirstOpener(b1, 1) == 1;
    assert FirstOpener(b1, 0) == 1;
    assert MatchEnd(b1, 3, Scan(1, true, false), '{') == None;
    assert MatchEnd(b1, 2, Scan(1, false, false), '{') == None;
    assert MatchEnd(b1, 1, Scan(0, false, false), '{') == None;
    assert Extract(b1) == Extraction([], b1);
    assert Extract(b0) == Extraction(["{}"], "x{\"");
  }
}
