/** The stream usage tracker (proxy/stream.go): it observes the bytes of an
    event stream in whatever chunks they arrive and keeps at most one bounded
    line and one bounded event. */
module StreamTracker {
  import opened QuotaTypes
  import opened ByteLines
  import opened UsageMerge
  import U = AttemptUsage

  const MAX_EVENT: nat := 0x10_0000

  // What a provider protocol makes of one event; either part may be absent.
  datatype Codec = Codec(terminal: Option<Bytes -> bool>, usage: Option<Bytes -> U.Usage>)

  datatype Sink = Sink(event: Bytes, discard: bool, usage: U.Usage, complete: bool)

  const NO_SINK: Sink := Sink([], false, U.NO_USAGE, false)

  function ProcessEvent(k: Codec, s: Sink): Sink {
    var data := TrimSpace(s.event);
    if s.discard || s.event == [] || data == [] then s.(event := [])
    else Sink([], s.discard,
              if k.usage.Some? then Merge(s.usage, k.usage.value(data)) else s.usage,
              s.complete || (k.terminal.Some? && k.terminal.value(data)))
  }

  function AddData(s: Sink, data: Bytes): Sink {
    var event := if s.event != [] then s.event + [LF] else s.event;
    if |event| + |data| > MAX_EVENT then s.(event := [], discard := true) else s.(event := event + data)
  }

  function ProcessLine(k: Codec, s: Sink, raw: Bytes): Sink {
    var line := TrimSuffix(raw, [CR]);
    if line == [] then ProcessEvent(k, s).(discard := false)
    else if s.discard || line[0] == COLON || !HasPrefix(line, DATA + [COLON]) then s
    else
      var data := line[5..];
      AddData(s, if data != [] && data[0] == SPACE then data[1..] else data)
  }

  // Processes every line that has ended.
  function FoldLines(k: Codec, s: Sink, b: Bytes): Sink
    decreases |b|
  {
    if Newline(b) < |b| then FoldLines(k, ProcessLine(k, s, b[..Newline(b)]), b[Newline(b) + 1..]) else s
  }

  datatype Tracker = Tracker(pending: Bytes, sink: Sink, finished: bool)

  const FRESH: Tracker := Tracker([], NO_SINK, false)

  function Feed(k: Codec, t: Tracker, data: Bytes): Tracker {
    if data == [] || t.finished then t
    else
      var p := t.pending + data;
      var s, rest := FoldLines(k, t.sink, p), Tail(p);
      if |rest| > MAX_EVENT then t.(pending := [], sink := s.(event := [], discard := true))
      else t.(pending := rest, sink := s)
  }

  function Finish(k: Codec, t: Tracker): Tracker {
    if t.finished then t
    else Tracker([], ProcessEvent(k, if t.pending != [] then ProcessLine(k, t.sink, t.pending) else t.sink), true)
  }

  function FeedAll(k: Codec, t: Tracker, chunks: seq<Bytes>): Tracker
    decreases |chunks|
  {
    if chunks == [] then t else FeedAll(k, Feed(k, t, chunks[0]), chunks[1..])
  }

  // --- The whole stream at once --------------------------------------------------------------------

  /** The lines of a whole stream; the last one may lack its line feed. */
  function Lines(b: Bytes): seq<Bytes>
    decreases |b|
  {
    if b == [] then []
    else if Newline(b) < |b| then [b[..Newline(b)]] + Lines(b[Newline(b) + 1..])
    else [b]
  }

  function ProcessLines(k: Codec, s: Sink, lines: seq<Bytes>): Sink
    decreases |lines|
  {
    if lines == [] then s else ProcessLines(k, ProcessLine(k, s, lines[0]), lines[1..])
  }

  /** What the stream says, read line by line. */
  function Reference(k: Codec, b: Bytes): Sink { ProcessEvent(k, ProcessLines(k, NO_SINK, Lines(b))) }

  predicate Short(lines: seq<Bytes>) { forall i :: 0 <= i < |lines| ==> |lines[i]| <= MAX_EVENT }

  predicate ShortLines(b: Bytes) { Short(Lines(b)) }

  // --- Chunks do not matter -------------------------------------------------------------------------

  lemma FoldFirst(k: Codec, s: Sink, b: Bytes)
    ensures Newline(b) < |b| ==>
      && FoldLines(k, s, b) == FoldLines(k, ProcessLine(k, s, b[..Newline(b)]), b[Newline(b) + 1..])
      && Tail(b) == Tail(b[Newline(b) + 1..])
    ensures Newline(b) == |b| ==> FoldLines(k, s, b) == s && Tail(b) == b
  {
    hide ProcessLine;
  }

  lemma {:induction false} FoldSplit(k: Codec, s: Sink, b: Bytes, d: Bytes)
    ensures FoldLines(k, s, b + d) == FoldLines(k, FoldLines(k, s, b), Tail(b) + d)
    ensures Tail(b + d) == Tail(Tail(b) + d)
    decreases |b|
  {
    hide ProcessLine, FoldLines, Tail;
    var n := Newline(b);
    FoldFirst(k, s, b);
    if n < |b| {
      NewlineAppend(b, d);
      FoldFirst(k, s, b + d);
      assert (b + d)[..n] == b[..n];
      assert (b + d)[n + 1..] == b[n + 1..] + d;
      FoldSplit(k, ProcessLine(k, s, b[..n]), b[n + 1..], d);
    }
  }

  lemma {:induction false} LinesOfPrefix(b: Bytes, d: Bytes)
    requires ShortLines(b + d)
    ensures |Tail(b)| <= MAX_EVENT
    decreases |b|
  {
    hide Lines;
    var n, all := Newline(b), b + d;
    NewlineAppend(b, d);
    if n < |b| {
      assert all[..n] == b[..n] && all[n + 1..] == b[n + 1..] + d;
      ShortRest(all);
      LinesOfPrefix(b[n + 1..], d);
    } else if Newline(all) < |all| {
      FirstLine(all);
      assert |Lines(all)[0]| <= MAX_EVENT;
    } else if b != [] {
      LastLine(all);
      assert |Lines(all)[0]| <= MAX_EVENT;
    }
  }

  lemma Prepended(x: Bytes, ys: seq<Bytes>)
    ensures ([x] + ys)[0] == x && ([x] + ys)[1..] == ys
    ensures Short([x] + ys) ==> Short(ys)
  {
    assert forall i :: 0 <= i < |ys| ==> ([x] + ys)[i + 1] == ys[i];
  }

  lemma LinesUnfold(b: Bytes)
    requires Newline(b) < |b|
    ensures Lines(b) == [b[..Newline(b)]] + Lines(b[Newline(b) + 1..])
  {
    hide Newline;
  }

  lemma ShortRest(b: Bytes)
    requires ShortLines(b) && Newline(b) < |b|
    ensures ShortLines(b[Newline(b) + 1..])
  {
    hide Short, Lines;
    LinesUnfold(b);
    Prepended(b[..Newline(b)], Lines(b[Newline(b) + 1..]));
  }

  // The tracker after the bytes b, however they were cut.
  predicate Seen(k: Codec, t: Tracker, b: Bytes) {
    !t.finished && t.pending == Tail(b) && t.sink == FoldLines(k, NO_SINK, b)
  }

  /** No chunk ends inside a line after more than the bound of it: what a
      caller can check of the chunks, whatever the lines. */
  predicate CutsShort(b: Bytes, chunks: seq<Bytes>)
    decreases |chunks|
  {
    |Tail(b)| <= MAX_EVENT && (chunks == [] || CutsShort(b + chunks[0], chunks[1..]))
  }

  /** After every chunk the tracker holds what the bytes so far say. */
  predicate AlwaysSeen(k: Codec, t: Tracker, b: Bytes, chunks: seq<Bytes>)
    decreases |chunks|
  {
    Seen(k, t, b) && (chunks == [] || AlwaysSeen(k, Feed(k, t, chunks[0]), b + chunks[0], chunks[1..]))
  }

  lemma FeedSeen(k: Codec, t: Tracker, b: Bytes, d: Bytes)
    requires Seen(k, t, b) && |Tail(b)| <= MAX_EVENT
    ensures Seen(k, Feed(k, t, d), b + d) <==> |Tail(b + d)| <= MAX_EVENT
  {
    hide FoldLines, Tail;
    if d == [] {
      assert b + d == b;
    } else {
      FoldSplit(k, NO_SINK, b, d);
    }
  }

  /** The tracker follows the stream through every chunk if and only if no
      chunk cuts a line beyond the bound. */
  lemma {:induction false} SeenIffCutsShort(k: Codec, t: Tracker, b: Bytes, chunks: seq<Bytes>)
    requires Seen(k, t, b) && |Tail(b)| <= MAX_EVENT
    ensures AlwaysSeen(k, t, b, chunks) <==> CutsShort(b, chunks)
    decreases |chunks|
  {
    hide Seen, Feed, Tail;
    if chunks != [] {
      FeedSeen(k, t, b, chunks[0]);
      if |Tail(b + chunks[0])| <= MAX_EVENT {
        SeenIffCutsShort(k, Feed(k, t, chunks[0]), b + chunks[0], chunks[1..]);
      } else {
        NotSeenNow(k, Feed(k, t, chunks[0]), b + chunks[0], chunks[1..]);
      }
    }
  }

  lemma NotSeenNow(k: Codec, t: Tracker, b: Bytes, chunks: seq<Bytes>)
    ensures !Seen(k, t, b) ==> !AlwaysSeen(k, t, b, chunks)
    ensures |Tail(b)| > MAX_EVENT ==> !CutsShort(b, chunks)
  {
  }

  lemma {:induction false} AlwaysSeenAtEnd(k: Codec, t: Tracker, b: Bytes, chunks: seq<Bytes>)
    requires AlwaysSeen(k, t, b, chunks)
    ensures Seen(k, FeedAll(k, t, chunks), b + Concat(chunks))
    decreases |chunks|
  {
    hide Seen, Feed;
    if chunks == [] {
      assert b + Concat(chunks) == b;
    } else {
      assert b + Concat(chunks) == b + chunks[0] + Concat(chunks[1..]);
      AlwaysSeenAtEnd(k, Feed(k, t, chunks[0]), b + chunks[0], chunks[1..]);
    }
  }

  // Short lines are never cut beyond the bound.
  lemma {:induction false} ShortLinesCutShort(b: Bytes, chunks: seq<Bytes>)
    requires ShortLines(b + Concat(chunks))
    ensures CutsShort(b, chunks)
    decreases |chunks|
  {
    hide ShortLines;
    LinesOfPrefix(b, Concat(chunks));
    if chunks != [] {
      assert b + Concat(chunks) == b + chunks[0] + Concat(chunks[1..]);
      ShortLinesCutShort(b + chunks[0], chunks[1..]);
    }
  }

  lemma FirstLine(b: Bytes)
    requires Newline(b) < |b|
    ensures |Lines(b)| > 0 && Lines(b)[0] == b[..Newline(b)] && Lines(b)[1..] == Lines(b[Newline(b) + 1..])
  {
    hide Lines;
    LinesUnfold(b);
    Prepended(b[..Newline(b)], Lines(b[Newline(b) + 1..]));
  }

  lemma LastLine(b: Bytes)
    requires Newline(b) == |b| && b != []
    ensures Lines(b) == [b]
  {
  }

  lemma OneLine(k: Codec, s: Sink, line: Bytes)
    ensures ProcessLines(k, s, [line]) == ProcessLine(k, s, line)
  {
    hide ProcessLine;
    assert [line][1..] == [];
  }

  lemma ProcessFirst(k: Codec, s: Sink, lines: seq<Bytes>)
    ensures ProcessLines(k, s, []) == s
    ensures |lines| > 0 ==> ProcessLines(k, s, lines) == ProcessLines(k, ProcessLine(k, s, lines[0]), lines[1..])
  {
    hide ProcessLine;
  }

  lemma {:induction false} FoldIsLineByLine(k: Codec, s: Sink, b: Bytes)
    ensures ProcessLines(k, s, Lines(b))
         == if Tail(b) != [] then ProcessLine(k, FoldLines(k, s, b), Tail(b)) else FoldLines(k, s, b)
    decreases |b|
  {
    hide ProcessLine, Lines, ProcessLines, FoldLines, Tail;
    var n := Newline(b);
    FoldFirst(k, s, b);
    ProcessFirst(k, s, Lines(b));
    if b == [] {
      NoLines();
    } else if n < |b| {
      FirstLine(b);
      FoldIsLineByLine(k, ProcessLine(k, s, b[..n]), b[n + 1..]);
    } else {
      LastLine(b);
      OneLine(k, s, b);
    }
  }

  lemma NoLines()
    ensures Lines([]) == []
  {
  }

  /** Chunks that cut no line beyond the bound do not matter, however long the
      lines: the finished tracker holds what reading the whole stream line by
      line gives. */
  lemma ChunksCutShortDoNotMatter(k: Codec, chunks: seq<Bytes>)
    requires CutsShort([], chunks)
    ensures Finish(k, FeedAll(k, FRESH, chunks)) == Tracker([], Reference(k, Concat(chunks)), true)
  {
    hide ProcessLine, ProcessEvent, FeedAll, CutsShort, AlwaysSeen;
    var b := Concat(chunks);
    assert [] + b == b;
    SeenIffCutsShort(k, FRESH, [], chunks);
    AlwaysSeenAtEnd(k, FRESH, [], chunks);
    FoldIsLineByLine(k, NO_SINK, b);
  }

  /** In particular, if no line is longer than the bound, no way of cutting the
      stream matters. */
  lemma ChunksDoNotMatter(k: Codec, chunks: seq<Bytes>)
    requires ShortLines(Concat(chunks))
    ensures Finish(k, FeedAll(k, FRESH, chunks)) == Tracker([], Reference(k, Concat(chunks)), true)
  {
    hide ShortLines, CutsShort, FeedAll, Finish, Reference;
    assert [] + Concat(chunks) == Concat(chunks);
    ShortLinesCutShort([], chunks);
    ChunksCutShortDoNotMatter(k, chunks);
  }

  // --- Longer lines ---------------------------------------------------------------------------------

  const TRIGGER: Codec := Codec(Some(_ => true), None)

  // More colons than a line may hold, and the rest of that line with an event after it.
  function LongComment(): Bytes { seq(MAX_EVENT + 1, _ => COLON) }
  const AFTERWARDS: Bytes := [COLON, LF] + EVENT
  const EVENT: Bytes := DATA + [COLON, 120, LF, LF]

  lemma EventCompletes(s: Sink)
    requires !s.discard && s.event == []
    ensures FoldLines(TRIGGER, s, EVENT).complete && FoldLines(TRIGGER, s, EVENT).event == []
    ensures !FoldLines(TRIGGER, s, EVENT).discard && Tail(EVENT) == []
  {
    hide FoldLines, Tail;
    FirstNewline(EVENT, 6);
    FoldFirst(TRIGGER, s, EVENT);
    var line := EVENT[..6];
    assert line == DATA + [COLON, 120] && EVENT[7..] == [LF];
    assert line[5..] == [120] && line[..5] == DATA + [COLON];
    assert !HasSuffix(line, [CR]);
    var s1 := ProcessLine(TRIGGER, s, line);
    assert s1 == s.(event := [120]);
    BlankEnds(s1);
  }

  lemma BlankEnds(s: Sink)
    ensures FoldLines(TRIGGER, s, [LF]) == ProcessEvent(TRIGGER, s).(discard := false) && Tail([LF]) == []
    ensures s.event == [120] && !s.discard ==> ProcessEvent(TRIGGER, s).complete && ProcessEvent(TRIGGER, s).event == []
  {
    hide FoldLines, Tail, ProcessEvent;
    FirstNewline([LF], 0);
    FoldFirst(TRIGGER, s, [LF]);
    assert [LF][..0] == [] && [LF][1..] == [];
    FirstNewline([], 0);
    FoldFirst(TRIGGER, ProcessLine(TRIGGER, s, []), []);
    assert !HasSuffix([], [CR]);
    OneByteEvent(s);
  }

  lemma OneByteEvent(s: Sink)
    ensures s.event == [120] && !s.discard ==> ProcessEvent(TRIGGER, s).complete && ProcessEvent(TRIGGER, s).event == []
  {
    assert TrimSpace([120]) == [120];
  }

  // While discarding, the event is skipped and then discarding ends.
  lemma EventDiscarded(s: Sink)
    requires s.discard && s.event == []
    ensures FoldLines(TRIGGER, s, EVENT) == s.(discard := false) && Tail(EVENT) == []
  {
    hide FoldLines, Tail;
    FirstNewline(EVENT, 6);
    FoldFirst(TRIGGER, s, EVENT);
    var line := EVENT[..6];
    assert line == DATA + [COLON, 120] && EVENT[7..] == [LF];
    assert line[5..] == [120];
    assert !HasSuffix(line, [CR]);
    BlankEnds(s);
  }

  lemma CommentSkipped(s: Sink, line: Bytes)
    requires |line| > 0 && forall i :: 0 <= i < |line| ==> line[i] == COLON
    ensures ProcessLine(TRIGGER, s, line) == s
    ensures FoldLines(TRIGGER, s, line + [LF] + EVENT) == FoldLines(TRIGGER, s, EVENT)
    ensures Tail(line + [LF] + EVENT) == Tail(EVENT)
  {
    hide FoldLines, Tail;
    var b := line + [LF] + EVENT;
    FirstNewline(b, |line|);
    FoldFirst(TRIGGER, s, b);
    assert b[..|line|] == line && b[|line| + 1..] == EVENT;
    assert !HasSuffix(line, [CR]) by { assert line[|line| - 1..] == [line[|line| - 1]]; }
  }

  lemma FeedOne(t: Tracker, chunk: Bytes)
    ensures FeedAll(TRIGGER, t, [chunk]) == Feed(TRIGGER, t, chunk)
  {
    hide Feed;
    var chunks: seq<Bytes> := [chunk];
    assert chunks[1..] == [];
  }

  lemma CutsOfOne(chunk: Bytes)
    ensures CutsShort([], [chunk]) <==> |Tail(chunk)| <= MAX_EVENT
  {
    var chunks: seq<Bytes> := [chunk];
    assert chunks[1..] == [] && [] + chunk == chunk;
    assert CutsShort([] + chunk, []) <==> |Tail(chunk)| <= MAX_EVENT;
  }

  /** The bound is needed: a comment longer than a line may be, in one chunk, is
      skipped and the event after it completes the stream; cut before its end it
      takes that event with it. Only the second way cuts beyond the bound. */
  lemma LongLinesDependOnChunks()
    ensures CutsShort([], [LongComment() + AFTERWARDS]) && !CutsShort([], [LongComment(), AFTERWARDS])
    ensures Finish(TRIGGER, FeedAll(TRIGGER, FRESH, [LongComment() + AFTERWARDS])).sink.complete
    ensures !Finish(TRIGGER, FeedAll(TRIGGER, FRESH, [LongComment(), AFTERWARDS])).sink.complete
  {
    hide FoldLines, Tail, ProcessLine, TrimSpace;
    var long := LongComment();
    var whole := long + AFTERWARDS;
    // one chunk
    var line := long + [COLON];
    assert whole == line + [LF] + EVENT && [] + whole == whole;
    CommentSkipped(NO_SINK, line);
    EventCompletes(NO_SINK);
    FeedOne(FRESH, whole);
    // two chunks
    FirstNewline(long, |long|);
    FoldFirst(TRIGGER, NO_SINK, long);
    assert [] + long == long;
    var cut := Feed(TRIGGER, FRESH, long);
    assert cut == Tracker([], NO_SINK.(discard := true), false);
    assert [] + AFTERWARDS == AFTERWARDS == [COLON] + [LF] + EVENT;
    CommentSkipped(cut.sink, [COLON]);
    EventDiscarded(cut.sink);
    assert Feed(TRIGGER, cut, AFTERWARDS) == Tracker([], NO_SINK, false);
    var chunks: seq<Bytes> := [long, AFTERWARDS];
    assert chunks[1..] == [AFTERWARDS];
    FeedOne(cut, AFTERWARDS);
    CutsOfOne(whole);
    NotSeenNow(TRIGGER, cut, [] + long, chunks[1..]);
  }

  /** The stored line and event never grow past their bound, for any input. */
  predicate Bounded(t: Tracker) { |t.pending| <= MAX_EVENT && |t.sink.event| <= MAX_EVENT }

  lemma LineBounded(k: Codec, s: Sink, line: Bytes)
    requires |s.event| <= MAX_EVENT
    ensures |ProcessLine(k, s, line).event| <= MAX_EVENT
  {
    hide Merge, TrimSpace;
  }

  lemma {:induction false} FoldBounded(k: Codec, s: Sink, b: Bytes)
    requires |s.event| <= MAX_EVENT
    ensures |FoldLines(k, s, b).event| <= MAX_EVENT
    decreases |b|
  {
    hide ProcessLine;
    if Newline(b) < |b| {
      LineBounded(k, s, b[..Newline(b)]);
      FoldBounded(k, ProcessLine(k, s, b[..Newline(b)]), b[Newline(b) + 1..]);
    }
  }

  lemma {:induction false} MemoryIsBounded(k: Codec, t: Tracker, chunks: seq<Bytes>)
    requires Bounded(t)
    ensures Bounded(FeedAll(k, t, chunks))
    decreases |chunks|
  {
    hide FoldLines;
    if chunks != [] {
      FoldBounded(k, t.sink, t.pending + chunks[0]);
      MemoryIsBounded(k, Feed(k, t, chunks[0]), chunks[1..]);
    }
  }

  // --- The tracker as it runs -------------------------------------------------------------------------

  class StreamUsageTracker {
    const codec: Codec
    var usage: U.Usage
    var pending: Bytes
    var event: Bytes
    var discard: bool
    var finished: bool
    var complete: bool

    function SinkView(): Sink
      reads this
    {
      Sink(event, discard, usage, complete)
    }

    function View(): Tracker
      reads this
    {
      Tracker(pending, SinkView(), finished)
    }

    constructor (codec: Codec)
      ensures View() == FRESH && this.codec == codec
    {
      this.codec := codec;
      usage, pending, event, discard, finished, complete := U.NO_USAGE, [], [], false, false, false;
    }

    method FinishEvent()
      modifies this`event, this`usage, this`complete
      ensures SinkView() == ProcessEvent(codec, old(SinkView()))
    {
      if discard || event == [] {
        event := [];
        return;
      }
      var data := TrimSpace(event);
      event := [];
      if data == [] {
        return;
      }
      if codec.terminal.Some? && codec.terminal.value(data) {
        complete := true;
      }
      if codec.usage.Some? {
        usage := Merge(usage, codec.usage.value(data));
      }
    }

    method HandleLine(raw: Bytes)
      modifies this`event, this`usage, this`complete, this`discard
      ensures SinkView() == ProcessLine(codec, old(SinkView()), raw)
    {
      hide Merge, TrimSpace;
      var line := TrimSuffix(raw, [CR]);
      if line == [] {
        FinishEvent();
        discard := false;
        return;
      }
      if discard || line[0] == COLON || !HasPrefix(line, DATA + [COLON]) {
        return;
      }
      var data := line[5..];
      if data != [] && data[0] == SPACE {
        data := data[1..];
      }
      if event != [] {
        event := event + [LF];
      }
      if |event| + |data| > MAX_EVENT {
        event := [];
        discard := true;
        return;
      }
      event := event + data;
    }

    method FeedBytes(data: Bytes)
      modifies this
      ensures View() == Feed(codec, old(View()), data)
    {
      hide ProcessLine;
      if data == [] || finished {
        return;
      }
      pending := pending + data;
      ghost var p := pending;
      while Newline(pending) < |pending|
        invariant finished == old(finished)
        invariant FoldLines(codec, SinkView(), pending) == FoldLines(codec, old(SinkView()), p)
        invariant Tail(pending) == Tail(p)
        decreases |pending|
      {
        var n := Newline(pending);
        var line := pending[..n];
        pending := pending[n + 1..];
        HandleLine(line);
      }
      if |pending| > MAX_EVENT {
        pending, event, discard := [], [], true;
      }
    }

    method FinishStream()
      modifies this
      ensures View() == Finish(codec, old(View()))
    {
      hide ProcessLine, ProcessEvent;
      if finished {
        return;
      }
      if |pending| > 0 {
        HandleLine(pending);
        pending := [];
      }
      FinishEvent();
      finished := true;
    }
  }
}
