/** What a stream of server-sent events says, defined without the tracker: lines,
    blocks between blank lines and the data fields of each block. The finished
    tracker (proxy/stream.go) holds exactly the merged usage of these events. */
module StreamEvents {
  import opened QuotaTypes
  import opened ByteLines
  import opened UsageMerge
  import opened StreamTracker
  import U = AttemptUsage

  // --- The events of a stream ---------------------------------------------------------------------

  /** A line without the carriage return that may end it. */
  function Bare(line: Bytes): Bytes { if line != [] && line[|line| - 1] == 13 then line[..|line| - 1] else line }

  /** Position of the first blank line, or the number of lines. */
  function FirstBlank(lines: seq<Bytes>): (n: nat)
    ensures n <= |lines| && (n < |lines| ==> Bare(lines[n]) == [])
    ensures forall i :: 0 <= i < n ==> Bare(lines[i]) != []
  {
    if lines == [] || Bare(lines[0]) == [] then 0 else 1 + FirstBlank(lines[1..])
  }

  /** A line of a data field: "data:", an optional space, the content. */
  predicate IsData(line: Bytes) { |line| >= 5 && line[..5] == [100, 97, 116, 97, 58] }

  function Content(line: Bytes): Bytes
    requires IsData(line)
  {
    if |line| > 5 && line[5] == 32 then line[6..] else line[5..]
  }

  /** The contents of the data fields of a block, in order. */
  function Contents(block: seq<Bytes>): seq<Bytes> {
    if block == [] then []
    else
      var last := Bare(block[|block| - 1]);
      Contents(block[..|block| - 1]) + if IsData(last) then [Content(last)] else []
  }

  function Join(parts: seq<Bytes>): Bytes {
    if parts == [] then [] else if |parts| == 1 then parts[0] else parts[0] + [10] + Join(parts[1..])
  }

  /** Contents joined by line feeds; empty contents in front of all others leave
      no trace. */
  function Payload(parts: seq<Bytes>): Bytes {
    if parts == [] || parts[0] != [] then Join(parts) else Payload(parts[1..])
  }

  /** The event of one block, if it has one: a payload that is neither longer
      than a mebibyte nor blank. */
  function BlockEvents(block: seq<Bytes>): seq<Bytes> {
    var payload := Payload(Contents(block));
    if |payload| <= 1_048_576 && TrimSpace(payload) != [] then [TrimSpace(payload)] else []
  }

  /** The events of all blocks: blank lines close a block, and the last block
      need not be closed. */
  function EventsOf(lines: seq<Bytes>): seq<Bytes>
    decreases |lines|
  {
    var n := FirstBlank(lines);
    if n == |lines| then BlockEvents(lines) else BlockEvents(lines[..n]) + EventsOf(lines[n + 1..])
  }

  /** The events of a whole stream, in order. */
  function Events(b: Bytes): seq<Bytes> { EventsOf(Lines(b)) }

  /** What the codec reads off the events. */
  function Snapshots(k: Codec, es: seq<Bytes>): seq<U.Usage> {
    if k.usage.None? then [] else seq(|es|, i requires 0 <= i < |es| => k.usage.value(es[i]))
  }

  predicate SomeTerminal(k: Codec, es: seq<Bytes>) {
    k.terminal.Some? && exists i :: 0 <= i < |es| && k.terminal.value(es[i])
  }

  // --- Payloads grow by one content --------------------------------------------------------------------

  lemma {:induction false} JoinSnoc(parts: seq<Bytes>, x: Bytes)
    requires parts != []
    ensures Join(parts + [x]) == Join(parts) + [10] + x
  {
    var more := parts + [x];
    if |parts| == 1 {
      assert more[1..] == [x];
    } else {
      assert more[0] == parts[0] && more[1..] == parts[1..] + [x];
      JoinSnoc(parts[1..], x);
    }
  }

  lemma JoinNotEmpty(parts: seq<Bytes>)
    requires parts != [] && parts[0] != []
    ensures Join(parts) != []
  {
  }

  lemma {:induction false} PayloadSnoc(parts: seq<Bytes>, x: Bytes)
    ensures Payload(parts + [x]) == if Payload(parts) == [] then x else Payload(parts) + [10] + x
  {
    hide Join;
    var more := parts + [x];
    if parts == [] {
      assert more == [x] && [x][1..] == [];
      JoinOne(x);
    } else {
      assert more[0] == parts[0] && more[1..] == parts[1..] + [x];
      if parts[0] != [] {
        JoinSnoc(parts, x);
        JoinNotEmpty(parts);
      } else {
        PayloadSnoc(parts[1..], x);
      }
    }
  }

  lemma JoinOne(x: Bytes)
    ensures Join([x]) == x && Join([]) == []
  {
  }

  // --- One block ------------------------------------------------------------------------------------------

  /** The sink inside a block whose data contents so far are `parts`. */
  predicate Gathers(s: Sink, parts: seq<Bytes>, usage: U.Usage, complete: bool) {
    && s.usage == usage && s.complete == complete
    && s.discard == (|Payload(parts)| > MAX_EVENT)
    && s.event == if s.discard then [] else Payload(parts)
  }

  lemma BareIsTrimmed(line: Bytes)
    ensures Bare(line) == TrimSuffix(line, [CR])
  {
    if line != [] {
      assert line[|line| - 1..] == [line[|line| - 1]];
    }
  }

  lemma DataPrefix(line: Bytes)
    ensures HasPrefix(line, DATA + [COLON]) <==> IsData(line)
    ensures IsData(line) ==> line != [] && line[0] != COLON
    ensures IsData(line) ==> var data := line[5..]; (if data != [] && data[0] == SPACE then data[1..] else data) == Content(line)
  {
    assert DATA + [COLON] == [100, 97, 116, 97, 58];
    if IsData(line) {
      assert line[0] == line[..5][0];
      assert |line| > 5 ==> line[5..][0] == line[5] && line[5..][1..] == line[6..];
    }
  }

  lemma ContentAdded(s: Sink, parts: seq<Bytes>, usage: U.Usage, complete: bool, x: Bytes)
    requires Gathers(s, parts, usage, complete) && !s.discard
    ensures Gathers(AddData(s, x), parts + [x], usage, complete)
  {
    hide Payload;
    PayloadSnoc(parts, x);
  }

  lemma LineGathered(k: Codec, s: Sink, block: seq<Bytes>, usage: U.Usage, complete: bool, line: Bytes)
    requires Gathers(s, Contents(block), usage, complete) && Bare(line) != []
    ensures Gathers(ProcessLine(k, s, line), Contents(block + [line]), usage, complete)
  {
    hide Payload, Contents, Bare, AddData, ProcessEvent, IsData, HasPrefix, TrimSuffix;
    var bare := Bare(line);
    ContentsSnoc(block, line);
    BareIsTrimmed(line);
    DataPrefix(bare);
    if IsData(bare) {
      if s.discard {
        PayloadSnoc(Contents(block), Content(bare));
      } else {
        ContentAdded(s, Contents(block), usage, complete, Content(bare));
      }
    }
  }

  lemma ContentsSnoc(block: seq<Bytes>, line: Bytes)
    ensures Contents(block + [line])
         == if IsData(Bare(line)) then Contents(block) + [Content(Bare(line))] else Contents(block)
  {
    hide IsData, Content, Bare;
    var more := block + [line];
    assert more[|more| - 1] == line && more[..|more| - 1] == block;
  }

  lemma {:induction false} BlockGathered(k: Codec, s: Sink, begun: seq<Bytes>, block: seq<Bytes>, usage: U.Usage, complete: bool)
    requires Gathers(s, Contents(begun), usage, complete)
    requires forall i :: 0 <= i < |block| ==> Bare(block[i]) != []
    ensures Gathers(ProcessLines(k, s, block), Contents(begun + block), usage, complete)
    decreases |block|
  {
    hide Gathers, ProcessLine, Contents, Bare;
    if block == [] {
      assert begun + block == begun;
    } else {
      LineGathered(k, s, begun, usage, complete, block[0]);
      assert begun + block == begun + [block[0]] + block[1..];
      BlockGathered(k, ProcessLine(k, s, block[0]), begun + [block[0]], block[1..], usage, complete);
    }
  }

  /** The state at the start of a block. */
  predicate Blank(s: Sink) { s.event == [] && !s.discard }

  lemma EventTaken(k: Codec, s: Sink, block: seq<Bytes>, usage: U.Usage, complete: bool)
    requires Gathers(s, Contents(block), usage, complete)
    ensures var s', es := ProcessEvent(k, s), BlockEvents(block);
      && s'.event == []
      && s'.usage == MergeAll(usage, Snapshots(k, es))
      && s'.complete == (complete || SomeTerminal(k, es))
  {
    hide Contents, Payload, Merge, TrimSpace;
    var es := BlockEvents(block);
    TrimNothing();
    if es == [] {
      NothingTaken(k, usage);
    } else {
      OneTaken(k, usage, es[0]);
    }
  }

  lemma TrimNothing()
    ensures TrimSpace([]) == []
  {
  }

  lemma NothingTaken(k: Codec, usage: U.Usage)
    ensures MergeAll(usage, Snapshots(k, [])) == usage && !SomeTerminal(k, [])
  {
    assert Snapshots(k, []) == [];
  }

  lemma OneTaken(k: Codec, usage: U.Usage, e: Bytes)
    ensures MergeAll(usage, Snapshots(k, [e])) == if k.usage.Some? then Merge(usage, k.usage.value(e)) else usage
    ensures SomeTerminal(k, [e]) <==> k.terminal.Some? && k.terminal.value(e)
  {
    hide Merge;
    assert [e][0] == e;
    if k.usage.Some? {
      var u := k.usage.value(e);
      assert Snapshots(k, [e]) == [u] && [u][1..] == [];
    }
  }

  // --- The whole stream --------------------------------------------------------------------------------------

  lemma {:induction false} ProcessJoined(k: Codec, s: Sink, a: seq<Bytes>, b: seq<Bytes>)
    ensures ProcessLines(k, s, a + b) == ProcessLines(k, ProcessLines(k, s, a), b)
    decreases |a|
  {
    hide ProcessLine;
    if a == [] {
      assert a + b == b;
    } else {
      var ab := a + b;
      assert ab[0] == a[0] && ab[1..] == a[1..] + b;
      ProcessJoined(k, ProcessLine(k, s, a[0]), a[1..], b);
    }
  }

  lemma SnapshotsJoin(k: Codec, usage: U.Usage, xs: seq<Bytes>, ys: seq<Bytes>)
    ensures MergeAll(usage, Snapshots(k, xs + ys)) == MergeAll(MergeAll(usage, Snapshots(k, xs)), Snapshots(k, ys))
    ensures SomeTerminal(k, xs + ys) <==> SomeTerminal(k, xs) || SomeTerminal(k, ys)
  {
    hide MergeAll;
    assert Snapshots(k, xs + ys) == Snapshots(k, xs) + Snapshots(k, ys);
    MergeJoined(usage, Snapshots(k, xs), Snapshots(k, ys));
    var all := xs + ys;
    if i :| 0 <= i < |xs| && k.terminal.Some? && k.terminal.value(xs[i]) {
      assert all[i] == xs[i];
    }
    if i :| 0 <= i < |ys| && k.terminal.Some? && k.terminal.value(ys[i]) {
      assert all[|xs| + i] == ys[i];
    }
  }

  lemma BlankGathers(s: Sink)
    requires Blank(s)
    ensures Gathers(s, Contents([]), s.usage, s.complete)
  {
  }

  // From the start of a block to the blank line after it.
  lemma BlockClosed(k: Codec, s: Sink, block: seq<Bytes>, blank: Bytes)
    requires Blank(s) && Bare(blank) == [] && forall i :: 0 <= i < |block| ==> Bare(block[i]) != []
    ensures var s', es := ProcessLines(k, s, block + [blank]), BlockEvents(block);
      && Blank(s')
      && s'.usage == MergeAll(s.usage, Snapshots(k, es))
      && s'.complete == (s.complete || SomeTerminal(k, es))
  {
    hide Contents, ProcessLines, Gathers, ProcessEvent, BlockEvents, Bare;
    BlankGathers(s);
    BlockGathered(k, s, [], block, s.usage, s.complete);
    assert [] + block == block;
    ProcessJoined(k, s, block, [blank]);
    var s1 := ProcessLines(k, s, block);
    OneLine(k, s1, blank);
    BareIsTrimmed(blank);
    EventTaken(k, s1, block, s.usage, s.complete);
  }

  lemma EventsUnfold(lines: seq<Bytes>)
    ensures var n := FirstBlank(lines);
      EventsOf(lines) == if n == |lines| then BlockEvents(lines) else BlockEvents(lines[..n]) + EventsOf(lines[n + 1..])
  {
    hide BlockEvents, FirstBlank, Bare;
  }

  lemma {:induction false} LinesGiveEvents(k: Codec, s: Sink, lines: seq<Bytes>)
    requires Blank(s)
    ensures var s', es := ProcessEvent(k, ProcessLines(k, s, lines)), EventsOf(lines);
      && s'.usage == MergeAll(s.usage, Snapshots(k, es))
      && s'.complete == (s.complete || SomeTerminal(k, es))
    decreases |lines|
  {
    hide ProcessLines, ProcessEvent, BlockEvents, Bare, Gathers, Contents, Blank, EventsOf, Snapshots, SomeTerminal, MergeAll;
    var n := FirstBlank(lines);
    EventsUnfold(lines);
    if n == |lines| {
      BlankGathers(s);
      BlockGathered(k, s, [], lines, s.usage, s.complete);
      assert [] + lines == lines;
      EventTaken(k, ProcessLines(k, s, lines), lines, s.usage, s.complete);
    } else {
      var block, rest := lines[..n], lines[n + 1..];
      assert lines == block + [lines[n]] + rest;
      BlockClosed(k, s, block, lines[n]);
      ProcessJoined(k, s, block + [lines[n]], rest);
      LinesGiveEvents(k, ProcessLines(k, s, block + [lines[n]]), rest);
      SnapshotsJoin(k, s.usage, BlockEvents(block), EventsOf(rest));
    }
  }

  /** However the stream is cut (as long as no chunk cuts a line beyond the
      bound), the finished tracker holds the merged usage of the events in order,
      and is complete exactly if one of them is terminal. */
  lemma TrackerMergesEvents(k: Codec, chunks: seq<Bytes>)
    requires CutsShort([], chunks)
    ensures var t, es := Finish(k, FeedAll(k, FRESH, chunks)), Events(Concat(chunks));
      && t.sink.usage == MergeAll(U.NO_USAGE, Snapshots(k, es))
      && (t.sink.complete <==> SomeTerminal(k, es))
  {
    hide CutsShort, FeedAll, Finish, Lines, ProcessLines, ProcessEvent, EventsOf, Snapshots, SomeTerminal, MergeAll;
    ChunksCutShortDoNotMatter(k, chunks);
    LinesGiveEvents(k, NO_SINK, Lines(Concat(chunks)));
  }

  /** Two streams whose events carry the same well-formed snapshots, in whatever
      order and however often, leave their trackers with the same usage. */
  lemma OnlySnapshotsMatter(k: Codec, chunks: seq<Bytes>, others: seq<Bytes>)
    requires CutsShort([], chunks) && CutsShort([], others)
    requires var us, vs := Snapshots(k, Events(Concat(chunks))), Snapshots(k, Events(Concat(others)));
      AllWellFormed(us) && SameSnapshots(us, vs)
    ensures Finish(k, FeedAll(k, FRESH, chunks)).sink.usage == Finish(k, FeedAll(k, FRESH, others)).sink.usage
  {
    hide CutsShort, FeedAll, Finish, Events, Snapshots, MergeAll;
    TrackerMergesEvents(k, chunks);
    TrackerMergesEvents(k, others);
    var us, vs := Snapshots(k, Events(Concat(chunks))), Snapshots(k, Events(Concat(others)));
    forall i | 0 <= i < |vs|
      ensures U.WellFormedTokens(vs[i])
    {
      assert vs[i] in us;
    }
    OnlyTheSetOfSnapshotsMatters(U.NO_USAGE, us, vs);
  }

  // --- Lines ---------------------------------------------------------------------------------------------------

  function WithFeeds(lines: seq<Bytes>): Bytes {
    if lines == [] then [] else lines[0] + [10] + WithFeeds(lines[1..])
  }

  /** The lines are the pieces between line feeds: none holds one, and put back
      with a line feed after each they are the stream, up to the line feed that an
      unfinished last line lacks. */
  lemma {:induction false} LinesArePieces(b: Bytes)
    ensures forall i :: 0 <= i < |Lines(b)| ==> 10 !in Lines(b)[i]
    ensures b != [] && b[|b| - 1] != 10 ==> WithFeeds(Lines(b)) == b + [10]
    ensures b == [] || b[|b| - 1] == 10 ==> WithFeeds(Lines(b)) == b
    decreases |b|
  {
    hide Lines;
    var n := Newline(b);
    if b == [] {
      NoLines();
    } else if n < |b| {
      var line, rest := b[..n], b[n + 1..];
      FirstLine(b);
      LinesArePieces(rest);
      assert b == line + [10] + rest;
      assert rest != [] ==> rest[|rest| - 1] == b[|b| - 1];
      var ls := Lines(b);
      assert forall i :: 1 <= i < |ls| ==> ls[i] == ls[1..][i - 1];
    } else {
      LastLine(b);
      assert [b][1..] == [];
    }
  }
}
