/** The wire format the completion bridge reads (proxy/bridge.go), stated byte by
    byte: which lines are data fields, which lines are blank, and where an event
    ends. */
module SseFields {
  import opened QuotaTypes
  import opened ByteLines
  import opened SseBridge

  /** A line is a data field exactly if it is "data" alone, or "data:" followed
      by the payload with at most one space between them. */
  lemma DataFieldIff(content: Bytes, payload: Bytes)
    ensures DataPayload(content) == Some(payload) <==>
      || (content == [100, 97, 116, 97] && payload == [])
      || content == [100, 97, 116, 97, 58, 32] + payload
      || (content == [100, 97, 116, 97, 58] + payload && (payload == [] || payload[0] != 32))
  {
    var p := [100, 97, 116, 97, 58];
    assert DATA + [COLON] == p;
    assert [100, 97, 116, 97, 58, 32] + payload == p + ([32] + payload);
    assert (p + ([32] + payload))[..5] == p && (p + ([32] + payload))[5..] == [32] + payload;
    assert ([32] + payload)[1..] == payload;
    assert (p + payload)[..5] == p && (p + payload)[5..] == payload;
    if HasPrefix(content, p) {
      assert content == p + content[5..];
      assert |content| > 5 && content[5] == 32 ==> content[5..] == [32] + content[6..] && content[5..][1..] == content[6..];
    }
  }

  lemma TrimmedByte(b: Bytes, x: byte)
    ensures TrimSuffix(b, [x]) == if b != [] && b[|b| - 1] == x then b[..|b| - 1] else b
  {
    assert |b| > 0 ==> b[|b| - 1..] == [b[|b| - 1]];
  }

  /** A line is blank exactly if nothing but its ending is there. */
  lemma BlankIff(line: Bytes)
    ensures IsBlank(line) <==> line == [] || line == [10] || line == [13] || line == [13, 10]
  {
    hide TrimSuffix;
    TrimmedByte(line, LF);
    TrimmedByte(TrimSuffix(line, [LF]), CR);
  }

  /** Events without data, with blank data or with the data "[DONE]" pass unchanged. */
  lemma PassesUnchanged(event: Bytes, convert: Convert)
    requires Payloads(SplitLines(event)) == [] || EventPayload(event) == [] || EventPayload(event) == [91, 68, 79, 78, 69, 93]
    ensures BridgeEvent(event, convert) == Some(event)
  {
    hide Payloads, SplitLines, EventPayload;
  }

  // --- Where an event ends ------------------------------------------------------------------------------

  predicate ClosesEvent(line: Bytes) { line == [10] || line == [13, 10] }

  lemma TerminatedBlank(b: Bytes)
    requires Newline(b) < |b|
    ensures IsBlank(b[..Newline(b) + 1]) <==> ClosesEvent(b[..Newline(b) + 1])
  {
    var line := b[..Newline(b) + 1];
    BlankIff(line);
    assert line[|line| - 1] == 10;
  }

  /** The lines up to and including the first that closes an event. */
  function UpToClose(lines: seq<Bytes>): seq<Bytes>
    decreases |lines|
  {
    if lines == [] then [] else if ClosesEvent(lines[0]) then [lines[0]] else [lines[0]] + UpToClose(lines[1..])
  }

  /** The next event is the lines up to the first blank one, and the stream is
      unfinished exactly if there is no blank line. */
  lemma {:induction false} EventIsUpToBlankLine(b: Bytes)
    ensures b[..EventLength(b)] == Concat(UpToClose(SplitLines(b)))
    ensures Unfinished(b) <==> forall i :: 0 <= i < |SplitLines(b)| ==> !ClosesEvent(SplitLines(b)[i])
    decreases |b|
  {
    hide SplitLines, EventLength, Unfinished, Newline, IsBlank, Concat;
    SplitUnfold(b);
    var n := Newline(b);
    if n == |b| {
      EventRunsOut(b);
      if b == [] {
        ConcatNothing();
      } else {
        SplitLast(b);
        NoFeed(b);
        LastUpTo(b);
      }
    } else {
      var line, rest := b[..n + 1], b[n + 1..];
      var ls := SplitLines(rest);
      SplitFirst(b);
      TerminatedBlank(b);
      FirstOf(line, ls);
      if IsBlank(line) {
        EventEnds(b);
        ConcatFirst(line, []);
        ConcatNothing();
        assert [line] + [] == [line];
      } else {
        EventGoesOn(b);
        EventIsUpToBlankLine(rest);
        ConcatFirst(line, UpToClose(ls));
        assert b[..EventLength(b)] == line + rest[..EventLength(rest)];
        LaterCloses(line, ls);
      }
    }
  }

  lemma NoFeed(b: Bytes)
    requires Newline(b) == |b|
    ensures !ClosesEvent(b)
  {
    assert b != [] ==> b[|b| - 1] != 10;
  }

  lemma LastUpTo(b: Bytes)
    requires b != []
    ensures Concat(UpToClose([b])) == b
  {
    assert [b][1..] == [];
    ConcatFirst(b, []);
    assert [b] + [] == [b];
  }

  lemma LaterCloses(line: Bytes, ls: seq<Bytes>)
    requires !ClosesEvent(line)
    ensures (forall i :: 0 <= i < |ls| ==> !ClosesEvent(ls[i]))
      <==> forall i :: 0 <= i < |[line] + ls| ==> !ClosesEvent(([line] + ls)[i])
  {
    var all := [line] + ls;
    assert forall i :: 0 <= i < |ls| ==> all[i + 1] == ls[i];
    assert forall i :: 0 < i < |all| ==> all[i] == ls[i - 1];
    if forall i :: 0 <= i < |all| ==> !ClosesEvent(all[i]) {
      forall i | 0 <= i < |ls|
        ensures !ClosesEvent(ls[i])
      {
        assert !ClosesEvent(all[i + 1]);
      }
    }
  }
}
