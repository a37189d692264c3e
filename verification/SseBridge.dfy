/** The completion bridge (proxy/bridge.go): it rewrites the data of every
    server-sent event and leaves everything else in place. The payload
    conversion itself is opaque. */
module SseBridge {
  import opened QuotaTypes
  import opened ByteLines

  const DONE: Bytes := [91, 68, 79, 78, 69, 93]

  // --- Lines ------------------------------------------------------------------------------------

  // The first line with its terminator, and what follows it.
  function FirstLine(b: Bytes): Bytes { if Newline(b) < |b| then b[..Newline(b) + 1] else b }

  function AfterLine(b: Bytes): (r: Bytes)
    ensures b != [] ==> |r| < |b|
  {
    if Newline(b) < |b| then b[Newline(b) + 1..] else []
  }

  /** Lines with their terminators; only the last may lack one. */
  function SplitLines(b: Bytes): seq<Bytes>
    decreases |b|
  {
    if b == [] then [] else [FirstLine(b)] + SplitLines(AfterLine(b))
  }

  lemma SplitUnfold(b: Bytes)
    ensures SplitLines([]) == []
    ensures b != [] ==> SplitLines(b) == [FirstLine(b)] + SplitLines(AfterLine(b))
  {
    hide FirstLine, AfterLine;
  }

  lemma SplitFirst(b: Bytes)
    requires Newline(b) < |b|
    ensures SplitLines(b) == [b[..Newline(b) + 1]] + SplitLines(b[Newline(b) + 1..])
  {
    hide SplitLines, Newline;
    SplitUnfold(b);
  }

  lemma SplitLast(b: Bytes)
    requires Newline(b) == |b| && b != []
    ensures SplitLines(b) == [b]
  {
    hide SplitLines, Newline;
    SplitUnfold(b);
  }

  lemma ConcatFirst(line: Bytes, rest: seq<Bytes>)
    ensures Concat([line] + rest) == line + Concat(rest)
  {
    assert ([line] + rest)[1..] == rest;
  }

  lemma LineParts(b: Bytes)
    ensures FirstLine(b) + AfterLine(b) == b
  {
    hide Newline;
  }

  lemma ConcatNothing()
    ensures Concat([]) == []
  {
  }

  lemma {:induction false} NoByteIsLost(b: Bytes)
    ensures Concat(SplitLines(b)) == b
    decreases |b|
  {
    hide SplitLines, Concat, FirstLine, AfterLine;
    SplitUnfold(b);
    if b == [] {
      ConcatNothing();
    } else {
      NoByteIsLost(AfterLine(b));
      ConcatFirst(FirstLine(b), SplitLines(AfterLine(b)));
      LineParts(b);
    }
  }

  method Split(event: Bytes) returns (lines: seq<Bytes>)
    ensures lines == SplitLines(event)
  {
    hide SplitLines, Newline;
    lines := [];
    var rest := event;
    while rest != []
      invariant lines + SplitLines(rest) == SplitLines(event)
      decreases |rest|
    {
      var n := Newline(rest);
      if n == |rest| {
        SplitLast(rest);
        lines := lines + [rest];
        return;
      }
      SplitFirst(rest);
      lines := lines + [rest[..n + 1]];
      rest := rest[n + 1..];
    }
    SplitUnfold([]);
  }

  /** Content and terminator of a line. */
  function SplitEnding(line: Bytes): (r: (Bytes, Bytes))
    ensures r.0 + r.1 == line
    ensures r.1 == [] || r.1 == [LF] || r.1 == [CR, LF]
    ensures r.1 == [] <==> line == [] || line[|line| - 1] != LF
  {
    if HasSuffix(line, [CR, LF]) then
      assert line[|line| - 1] == line[|line| - 2..][1];
      (line[..|line| - 2], line[|line| - 2..])
    else if HasSuffix(line, [LF]) then
      assert line[|line| - 1] == line[|line| - 1..][0];
      (line[..|line| - 1], line[|line| - 1..])
    else
      assert |line| > 0 ==> line[|line| - 1..] == [line[|line| - 1]];
      (line, [])
  }

  /** The payload of a data field; None for any other line. */
  function DataPayload(content: Bytes): Option<Bytes> {
    if content == DATA then Some([])
    else if !HasPrefix(content, DATA + [COLON]) then None
    else
      var payload := content[5..];
      Some(if payload != [] && payload[0] == SPACE then payload[1..] else payload)
  }

  function LinePayload(line: Bytes): Option<Bytes> { DataPayload(SplitEnding(line).0) }

  predicate IsBlank(line: Bytes) { TrimSuffix(TrimSuffix(line, [LF]), [CR]) == [] }

  // --- One event ----------------------------------------------------------------------------------

  function Payloads(lines: seq<Bytes>): seq<Bytes>
    decreases |lines|
  {
    if lines == [] then []
    else if LinePayload(lines[0]).Some? then [LinePayload(lines[0]).value] + Payloads(lines[1..])
    else Payloads(lines[1..])
  }

  function OtherLines(lines: seq<Bytes>): seq<Bytes>
    decreases |lines|
  {
    if lines == [] then []
    else if LinePayload(lines[0]).Some? then OtherLines(lines[1..])
    else [lines[0]] + OtherLines(lines[1..])
  }

  function Join(parts: seq<Bytes>): Bytes
    decreases |parts|
  {
    if parts == [] then [] else if |parts| == 1 then parts[0] else parts[0] + [LF] + Join(parts[1..])
  }

  /** The payload a client reads from an event. */
  function EventPayload(event: Bytes): Bytes { TrimSpace(Join(Payloads(SplitLines(event)))) }

  function DataLine(converted: Bytes, ending: Bytes): Bytes { DATA + [COLON, SPACE] + converted + ending }

  // The first data line carries the new payload, later ones are dropped.
  function Rewritten(lines: seq<Bytes>, converted: Bytes, inserted: bool): seq<Bytes>
    decreases |lines|
  {
    if lines == [] then []
    else if LinePayload(lines[0]).None? then [lines[0]] + Rewritten(lines[1..], converted, inserted)
    else if inserted then Rewritten(lines[1..], converted, inserted)
    else [DataLine(converted, SplitEnding(lines[0]).1)] + Rewritten(lines[1..], converted, true)
  }

  type Convert = Bytes -> Option<Bytes>

  function BridgeEvent(event: Bytes, convert: Convert): Option<Bytes> {
    var lines := SplitLines(event);
    var payload := EventPayload(event);
    if Payloads(lines) == [] || payload == [] || payload == DONE then Some(event)
    else if convert(payload).None? then None
    else Some(Concat(Rewritten(lines, convert(payload).value, false)))
  }

  method CollectPayloads(lines: seq<Bytes>) returns (data: seq<Bytes>)
    ensures data == Payloads(lines)
  {
    hide LinePayload;
    data := [];
    for i := 0 to |lines|
      invariant data + Payloads(lines[i..]) == Payloads(lines)
    {
      assert lines[i..][0] == lines[i] && lines[i..][1..] == lines[i + 1..];
      var payload := LinePayload(lines[i]);
      if payload.Some? {
        data := data + [payload.value];
      }
    }
  }

  method WriteLines(lines: seq<Bytes>, converted: Bytes) returns (out: Bytes)
    ensures out == Concat(Rewritten(lines, converted, false))
  {
    hide LinePayload, SplitEnding, DataLine, Rewritten, Concat, Newline;
    out := [];
    var inserted := false;
    for i := 0 to |lines|
      invariant out + Concat(Rewritten(lines[i..], converted, inserted)) == Concat(Rewritten(lines, converted, false))
    {
      assert lines[i..][0] == lines[i] && lines[i..][1..] == lines[i + 1..];
      RewrittenFirst(lines[i..], converted, inserted);
      if LinePayload(lines[i]).Some? {
        if !inserted {
          out := out + DataLine(converted, SplitEnding(lines[i]).1);
          inserted := true;
        }
      } else {
        out := out + lines[i];
      }
    }
    RewrittenNothing(converted, inserted);
  }

  lemma RewrittenNothing(c: Bytes, inserted: bool)
    ensures Concat(Rewritten([], c, inserted)) == []
  {
  }

  /** The two passes over the lines: one collects the payloads, one writes. */
  method Bridge(event: Bytes, convert: Convert) returns (r: Option<Bytes>)
    ensures r == BridgeEvent(event, convert)
  {
    hide Payloads, Rewritten, SplitLines, TrimSpace, Concat, Join;
    var lines := Split(event);
    var data := CollectPayloads(lines);
    if data == [] {
      return Some(event);
    }
    var payload := TrimSpace(Join(data));
    if payload == [] || payload == DONE {
      return Some(event);
    }
    var converted := convert(payload);
    if converted.None? {
      return None;
    }
    var out := WriteLines(lines, converted.value);
    return Some(out);
  }

  lemma RewrittenFirst(lines: seq<Bytes>, c: Bytes, inserted: bool)
    requires lines != []
    ensures Concat(Rewritten(lines, c, inserted)) ==
      if LinePayload(lines[0]).None? then lines[0] + Concat(Rewritten(lines[1..], c, inserted))
      else if inserted then Concat(Rewritten(lines[1..], c, inserted))
      else DataLine(c, SplitEnding(lines[0]).1) + Concat(Rewritten(lines[1..], c, true))
  {
    hide LinePayload, SplitEnding, DataLine, Concat;
    ConcatFirst(lines[0], Rewritten(lines[1..], c, inserted));
    ConcatFirst(DataLine(c, SplitEnding(lines[0]).1), Rewritten(lines[1..], c, true));
  }

  // --- Re-framing -----------------------------------------------------------------------------------

  /** A list of lines as splitting produces it. */
  predicate WellSplit(lines: seq<Bytes>) {
    forall i :: 0 <= i < |lines| ==>
      && lines[i] != [] && Newline(lines[i]) >= |lines[i]| - 1
      && (i < |lines| - 1 ==> Newline(lines[i]) == |lines[i]| - 1)
  }

  lemma WellSplitParts(lines: seq<Bytes>)
    requires WellSplit(lines) && lines != []
    ensures lines[0] != [] && Newline(lines[0]) >= |lines[0]| - 1
    ensures Newline(lines[0]) == |lines[0]| - 1 || |lines| == 1
    ensures WellSplit(lines[1..])
  {
    hide Newline;
  }

  lemma WellSplitPrepend(line: Bytes, rest: seq<Bytes>)
    requires line != [] && Newline(line) == |line| - 1 && WellSplit(rest)
    ensures WellSplit([line] + rest)
  {
    hide Newline;
    var all := [line] + rest;
    forall i | 0 <= i < |all|
      ensures all[i] != [] && Newline(all[i]) >= |all[i]| - 1
      ensures i < |all| - 1 ==> Newline(all[i]) == |all[i]| - 1
    {
      assert i > 0 ==> all[i] == rest[i - 1];
    }
  }

  lemma {:induction false} SplitIsWellSplit(b: Bytes)
    ensures WellSplit(SplitLines(b))
    decreases |b|
  {
    hide SplitLines;
    SplitUnfold(b);
    if b != [] {
      var n := Newline(b);
      if n < |b| {
        SplitFirst(b);
        SplitIsWellSplit(b[n + 1..]);
        FirstNewline(b[..n + 1], n);
        WellSplitPrepend(b[..n + 1], SplitLines(b[n + 1..]));
      } else {
        SplitLast(b);
      }
    }
  }

  lemma {:induction false} SplitOfConcat(lines: seq<Bytes>)
    requires WellSplit(lines)
    ensures SplitLines(Concat(lines)) == lines
    decreases |lines|
  {
    hide SplitLines, WellSplit, Newline;
    SplitUnfold([]);
    if lines != [] {
      WellSplitParts(lines);
      var line, rest := lines[0], lines[1..];
      var b := Concat(lines);
      SplitOfConcat(rest);
      NewlineAppend(line, Concat(rest));
      if Newline(line) < |line| {
        assert b[..|line|] == line && b[|line|..] == Concat(rest);
        SplitFirst(b);
        assert lines == [line] + rest;
      } else {
        assert rest == [] && b == line && lines == [line];
        SplitLast(b);
      }
    }
  }

  /** Properties of every encoded payload: one line, no surrounding space. */
  predicate OneLine(c: Bytes) { c != [] && Newline(c) == |c| && TrimSpace(c) == c && !IsSpace(c[0]) && !IsSpace(c[|c| - 1]) }

  lemma DataLineNewline(c: Bytes, ending: Bytes)
    requires Newline(c) == |c| && (ending == [] || ending == [LF] || ending == [CR, LF])
    ensures Newline(DataLine(c, ending)) == |DataLine(c, ending)| - if ending == [] then 0 else 1
  {
    var line := DataLine(c, ending);
    FirstNewline(line, |line| - if ending == [] then 0 else 1);
  }

  lemma {:induction false} RewrittenIsWellSplit(lines: seq<Bytes>, c: Bytes, inserted: bool)
    requires WellSplit(lines) && OneLine(c)
    ensures WellSplit(Rewritten(lines, c, inserted))
    decreases |lines|
  {
    if lines != [] {
      hide WellSplit, DataLine, LinePayload;
      WellSplitParts(lines);
      var line, rest := lines[0], lines[1..];
      if LinePayload(line).None? {
        RewrittenIsWellSplit(rest, c, inserted);
        KeptFirst(line, rest, Rewritten(rest, c, inserted), c, inserted);
      } else if inserted {
        RewrittenIsWellSplit(rest, c, inserted);
      } else {
        var ending := SplitEnding(line).1;
        RewrittenIsWellSplit(rest, c, true);
        DataLineNewline(c, ending);
        DataLineShape(c, ending);
        LastByte(line);
        KeptFirst(DataLine(c, ending), rest, Rewritten(rest, c, true), c, true);
      }
    }
  }

  lemma LastByte(line: Bytes)
    requires line != [] && Newline(line) >= |line| - 1
    ensures line[|line| - 1] == LF <==> Newline(line) == |line| - 1
  {
  }

  lemma DataLineShape(c: Bytes, ending: Bytes)
    ensures |DataLine(c, ending)| == 6 + |c| + |ending|
  {
  }

  lemma KeptFirst(line: Bytes, rest: seq<Bytes>, out: seq<Bytes>, c: Bytes, inserted: bool)
    requires line != [] && Newline(line) >= |line| - 1 && (Newline(line) == |line| - 1 || rest == [])
    requires out == Rewritten(rest, c, inserted) && WellSplit(out)
    ensures WellSplit([line] + out)
  {
    if Newline(line) == |line| - 1 {
      WellSplitPrepend(line, out);
    } else {
      assert out == [] && [line] + out == [line];
    }
  }

  lemma DataLinePayload(c: Bytes, ending: Bytes)
    requires OneLine(c) && (ending == [] || ending == [LF] || ending == [CR, LF])
    ensures SplitEnding(DataLine(c, ending)) == (DATA + [COLON, SPACE] + c, ending)
    ensures LinePayload(DataLine(c, ending)) == Some(c)
  {
    hide TrimSpace;
    var content := DATA + [COLON, SPACE] + c;
    var line := DataLine(c, ending);
    assert line == content + ending;
    assert content[|content| - 1] == c[|c| - 1];
    EndingOf(content, ending);
    assert content != DATA;
    assert content[..5] == DATA + [COLON];
    assert content[5..] == [SPACE] + c;
    assert content[5..][1..] == c;
  }

  lemma EndingOf(content: Bytes, ending: Bytes)
    requires ending == [] || ending == [LF] || ending == [CR, LF]
    requires content != [] && content[|content| - 1] != CR && content[|content| - 1] != LF
    ensures SplitEnding(content + ending) == (content, ending)
  {
    var line := content + ending;
    if ending == [] {
      assert line == content;
    } else {
      assert line[|line| - 1] == LF;
      assert line[|line| - 2] == if |ending| == 1 then content[|content| - 1] else CR;
      assert line[..|content|] == content && line[|content|..] == ending;
      if |ending| == 1 {
        assert !HasSuffix(line, [CR, LF]);
      }
    }
  }

  lemma {:induction false} RewrittenPayloads(lines: seq<Bytes>, c: Bytes, inserted: bool)
    requires OneLine(c)
    ensures OtherLines(Rewritten(lines, c, inserted)) == OtherLines(lines)
    ensures Payloads(Rewritten(lines, c, inserted)) == if inserted || Payloads(lines) == [] then [] else [c]
    decreases |lines|
  {
    hide LinePayload, DataLine, OneLine;
    if lines != [] {
      var line, rest := lines[0], lines[1..];
      if LinePayload(line).None? {
        RewrittenPayloads(rest, c, inserted);
        FirstOf(line, Rewritten(rest, c, inserted));
      } else if inserted {
        RewrittenPayloads(rest, c, inserted);
      } else {
        var data := DataLine(c, SplitEnding(line).1);
        RewrittenPayloads(rest, c, true);
        DataLinePayload(c, SplitEnding(line).1);
        FirstOf(data, Rewritten(rest, c, true));
      }
    }
  }

  lemma FirstOf(line: Bytes, rest: seq<Bytes>)
    ensures ([line] + rest)[0] == line && ([line] + rest)[1..] == rest
  {
  }

  // Data that is converted: not missing, empty or the end marker.
  predicate Convertible(event: Bytes) {
    Payloads(SplitLines(event)) != [] && EventPayload(event) != [] && EventPayload(event) != DONE
  }

  lemma ConvertedEvent(event: Bytes, convert: Convert)
    requires Convertible(event) && convert(EventPayload(event)).Some? && OneLine(convert(EventPayload(event)).value)
    ensures var out, c := BridgeEvent(event, convert), convert(EventPayload(event)).value;
      && out.Some?
      && Payloads(SplitLines(out.value)) == [c] && EventPayload(out.value) == c
      && OtherLines(SplitLines(out.value)) == OtherLines(SplitLines(event))
  {
    hide SplitLines, Payloads, OtherLines, Rewritten, WellSplit, LinePayload;
    var lines, c := SplitLines(event), convert(EventPayload(event)).value;
    SplitIsWellSplit(event);
    RewrittenIsWellSplit(lines, c, false);
    SplitOfConcat(Rewritten(lines, c, false));
    RewrittenPayloads(lines, c, false);
  }

  /** Every event: without data, with empty data or with the end marker it
      passes unchanged; otherwise it fails exactly if its conversion does, and a
      converted event parses back into exactly the converted payload, in one data
      field, and keeps every other line byte for byte and in order. */
  lemma ReframedEvent(event: Bytes, convert: Convert)
    ensures var out, c := BridgeEvent(event, convert), convert(EventPayload(event));
      && (!Convertible(event) ==> out == Some(event))
      && (out.None? <==> Convertible(event) && c.None?)
      && (Convertible(event) && c.Some? && OneLine(c.value) ==>
            && Payloads(SplitLines(out.value)) == [c.value] && EventPayload(out.value) == c.value
            && OtherLines(SplitLines(out.value)) == OtherLines(SplitLines(event)))
  {
    hide SplitLines, Payloads, OtherLines, Rewritten, EventPayload, OneLine;
    var c := convert(EventPayload(event));
    if Convertible(event) && c.Some? && OneLine(c.value) {
      ConvertedEvent(event, convert);
    }
  }

  // --- Events of a stream -----------------------------------------------------------------------------

  /** Length of the next event: up to and including the next blank line, or
      all that is left. */
  function EventLength(b: Bytes): (r: nat)
    ensures r <= |b|
    ensures b != [] ==> r > 0
    decreases |b|
  {
    var n := Newline(b);
    if n == |b| then |b| else if IsBlank(b[..n + 1]) then n + 1 else n + 1 + EventLength(b[n + 1..])
  }

  // Whether the source ran out before a blank line.
  predicate Unfinished(b: Bytes)
    decreases |b|
  {
    var n := Newline(b);
    n == |b| || (!IsBlank(b[..n + 1]) && Unfinished(b[n + 1..]))
  }

  lemma FirstOfBridged(b: Bytes, end: Fault, convert: Convert)
    ensures b == [] ==> Unfinished(b)
    ensures b == [] || (Unfinished(b) && end != Eof) ==> Bridged(b, end, convert) == Delivery([], end)
    ensures b != [] && !(Unfinished(b) && end != Eof) ==>
      var out, d := BridgeEvent(b[..EventLength(b)], convert), Bridged(b, end, convert);
      if out.None? then d == Delivery([], ConvertFault)
      else if Unfinished(b) then d == Delivery(out.value, end)
      else
        var rest := Bridged(b[EventLength(b)..], end, convert);
        d == Delivery(out.value + rest.bytes, rest.fault)
  {
    hide BridgeEvent, EventLength, Newline, IsBlank;
  }

  lemma EventRunsOut(b: Bytes)
    requires Newline(b) == |b|
    ensures EventLength(b) == |b| && Unfinished(b)
  {
    hide Newline;
  }

  lemma EventEnds(b: Bytes)
    requires Newline(b) < |b| && IsBlank(b[..Newline(b) + 1])
    ensures EventLength(b) == Newline(b) + 1 && !Unfinished(b)
  {
    hide Newline, IsBlank;
  }

  lemma EventGoesOn(b: Bytes)
    requires Newline(b) < |b| && !IsBlank(b[..Newline(b) + 1])
    ensures EventLength(b) == Newline(b) + 1 + EventLength(b[Newline(b) + 1..])
    ensures Unfinished(b) == Unfinished(b[Newline(b) + 1..])
  {
    hide Newline, IsBlank;
  }

  lemma Slices(s: Bytes, pos: nat, n: nat)
    requires pos + n <= |s|
    ensures s[..pos] + s[pos..][..n] == s[..pos + n] && s[pos..][n..] == s[pos + n..]
  {
  }

  datatype Fault = Eof | SourceFault | ConvertFault

  // What a reader delivers: bytes and then a fault.
  datatype Delivery = Delivery(bytes: Bytes, fault: Fault)

  /** The bridged stream: the conversions of its events one after the other. A
      source that fails loses its unfinished event, a conversion error ends it. */
  function Bridged(b: Bytes, end: Fault, convert: Convert): Delivery
    decreases |b|
  {
    if b == [] || (Unfinished(b) && end != Eof) then Delivery([], end)
    else
      var out := BridgeEvent(b[..EventLength(b)], convert);
      if out.None? then Delivery([], ConvertFault)
      else if Unfinished(b) then Delivery(out.value, end)
      else
        var rest := Bridged(b[EventLength(b)..], end, convert);
        Delivery(out.value + rest.bytes, rest.fault)
  }

  lemma PieceTaken(pending: Bytes, n: nat, rest: Bytes)
    requires n <= |pending|
    ensures pending[..n] + (pending[n..] + rest) == pending + rest
    ensures pending[..n] + pending[n..] == pending
  {
  }

  lemma PieceAdded(out: Bytes, piece: Bytes, rest: Bytes)
    ensures out + (piece + rest) == (out + piece) + rest
  {
  }

  class CompletionBridge {
    const convert: Convert
    const end: Fault
    var source: Bytes
    var pending: Bytes
    var pendingErr: Option<Fault>

    ghost predicate Valid()
      reads this
    {
      end != ConvertFault && (pendingErr.Some? ==> pendingErr.value == end)
    }

    /** All that this reader will deliver. */
    function Remaining(): Delivery
      reads this
    {
      if pendingErr.Some? then Delivery(pending, pendingErr.value)
      else
        var rest := Bridged(source, end, convert);
        Delivery(pending + rest.bytes, rest.fault)
    }

    constructor (source: Bytes, end: Fault, convert: Convert)
      requires end != ConvertFault
      ensures Valid() && Remaining() == Bridged(source, end, convert)
      ensures this.convert == convert && this.end == end
    {
      this.source, this.end, this.convert := source, end, convert;
      pending, pendingErr := [], None;
    }

    method ReadEvent() returns (event: Bytes, err: Option<Fault>)
      modifies this`source
      ensures var s := old(source);
        event == s[..EventLength(s)] && source == s[EventLength(s)..] && err == if Unfinished(s) then Some(end) else None
    {
      hide IsBlank, EventLength, Unfinished, Newline;
      event := [];
      ghost var s := source;
      ghost var pos: nat := 0;
      while true
        invariant pos <= |s| && event == s[..pos] && source == s[pos..]
        invariant pos + EventLength(source) == EventLength(s) && Unfinished(source) == Unfinished(s)
        decreases |source|
      {
        var n := Newline(source);
        Slices(s, pos, if n < |source| then n + 1 else n);
        if n == |source| {
          EventRunsOut(source);
          event, source := event + source, [];
          return event, Some(end);
        }
        var line := source[..n + 1];
        source := source[n + 1..];
        event := event + line;
        pos := pos + n + 1;
        if IsBlank(line) {
          EventEnds(s[pos - n - 1..]);
          return event, None;
        }
        EventGoesOn(s[pos - n - 1..]);
      }
    }

    // Converts the next events until there is something to hand out.
    method Fill() returns (err: Option<Fault>)
      requires Valid()
      modifies this
      ensures Valid()
      ensures err.None? ==> pending != [] && Remaining() == old(Remaining())
      ensures err.Some? ==> old(Remaining()) == Delivery([], err.value)
    {
      hide BridgeEvent, EventLength, Unfinished, Bridged;
      while pending == []
        invariant Valid() && Remaining() == old(Remaining())
        decreases if pendingErr.Some? then 0 else 1, |source|
      {
        if pendingErr.Some? {
          err := pendingErr;
          pendingErr := None;
          return;
        }
        FirstOfBridged(source, end, convert);
        var event, fault := ReadEvent();
        if event == [] {
          return fault;
        }
        if fault.Some? && fault != Some(Eof) {
          return fault;
        }
        var converted := Bridge(event, convert);
        if converted.None? {
          return Some(ConvertFault);
        }
        pending, pendingErr := converted.value, fault;
      }
      return None;
    }

    /** One read into a buffer of the given size takes a piece off what remains,
        and reports a fault only when nothing remains before it. */
    method Read(size: nat) returns (out: Bytes, err: Option<Fault>)
      requires Valid()
      modifies this
      ensures Valid() && |out| <= size
      ensures err.None? && size > 0 ==> out != []
      ensures err.None? ==> old(Remaining()) == Delivery(out + Remaining().bytes, Remaining().fault)
      ensures err.Some? ==> out == [] && old(Remaining()) == Delivery([], err.value)
    {
      hide Bridged;
      if size == 0 {
        return [], None;
      }
      err := Fill();
      if err.Some? {
        return [], err;
      }
      var n := if size < |pending| then size else |pending|;
      PieceTaken(pending, n, Bridged(source, end, convert).bytes);
      out := pending[..n];
      pending := pending[n..];
      return out, None;
    }

    /** For any buffer sizes the caller reads with: what it gets is a prefix of
        the bridged stream, and when a fault arrives it has got all of it. */
    method ReadThrough(sizes: seq<nat>) returns (out: Bytes, err: Option<Fault>)
      requires Valid()
      modifies this
      ensures err.None? ==> old(Remaining()) == Delivery(out + Remaining().bytes, Remaining().fault)
      ensures err.Some? ==> old(Remaining()) == Delivery(out, err.value)
    {
      hide Bridged;
      out := [];
      for i := 0 to |sizes|
        invariant Valid() && old(Remaining()) == Delivery(out + Remaining().bytes, Remaining().fault)
      {
        var piece, fault := Read(sizes[i]);
        if fault.Some? {
          return out, fault;
        }
        PieceAdded(out, piece, Remaining().bytes);
        out := out + piece;
      }
      return out, None;
    }
  }
}
