/**
 The event stream of relaunched monitors. A monitor's output file is read through a 64 KiB
 window from the last acknowledged offset, cut at newlines, and every non-blank piece becomes
 one event that carries the offset at which it ends; acknowledging an event moves the durable
 offset there.
 */
module MonitorEvents {
  import opened Basics
  import opened OutputReads

  const WINDOW: nat := 65536
  const NEWLINE: Byte := 10
  const RETURN: Byte := 13

  datatype Event = Event(launchId: string, labelText: string, text: seq<Byte>, endOffset: nat)

  /** What an item has written, and whether it has finished. */
  datatype Output = Output(launchId: string, labelText: string, content: seq<Byte>, terminal: bool)

  /** A listed item: only relaunched monitors have a stream, and the output may be unreadable. */
  datatype Source = Source(output: Output, isRelaunchedMonitor: bool, readable: bool, delivered: nat)

  // ----- The simple cutter -----

  /** The first newline at or after `from`, or the end of the content. */
  function NewlineFrom(content: seq<Byte>, from: nat): (i: nat)
    requires from <= |content|
    ensures from <= i <= |content|
    decreases |content| - from
  {
    if from == |content| || content[from] == NEWLINE then from else NewlineFrom(content, from + 1)
  }

  lemma {:induction false} FirstNewline(content: seq<Byte>, from: nat)
    requires from <= |content|
    ensures var i := NewlineFrom(content, from);
      && (forall k :: from <= k < i ==> content[k] != NEWLINE)
      && (i < |content| ==> content[i] == NEWLINE)
    decreases |content| - from
  {
    if from < |content| && content[from] != NEWLINE {
      FirstNewline(content, from + 1);
    }
  }

  /**
   Where the piece starting at `from` ends: after the next newline within the window, else
   after a full window if more follows, else at the end of a finished file only.
   */
  function Cut(content: seq<Byte>, from: nat, terminal: bool): (end: Option<nat>)
    requires from <= |content|
    ensures end.Some? ==> from < end.value <= |content| && end.value <= from + WINDOW
  {
    var nl := NewlineFrom(content, from);
    if nl < |content| && nl < from + WINDOW then Some(nl + 1)
    else if from + WINDOW < |content| then Some(from + WINDOW)
    else if terminal && from < |content| then Some(|content|)
    else None
  }

  /** A piece without its line end. */
  function Strip(piece: seq<Byte>): seq<Byte> {
    var n := |piece|;
    if n > 0 && piece[n - 1] == NEWLINE then
      if n > 1 && piece[n - 2] == RETURN then piece[..n - 2] else piece[..n - 1]
    else piece
  }

  /** A line loses its end, \n or \r\n, and nothing else; a piece that ends in neither stays. */
  lemma StripTakesTheLineEnd(text: seq<Byte>)
    ensures Strip(text + [13, 10]) == text
    ensures text == [] || text[|text| - 1] != 13 ==> Strip(text + [10]) == text
    ensures text == [] || text[|text| - 1] != 10 ==> Strip(text) == text
  {
    assert (text + [13, 10])[..|text|] == text && (text + [10])[..|text|] == text;
  }

  /** What one piece contributes: an event, or nothing when its text is blank. */
  function Shown(o: Output, from: nat, end: nat, blank: seq<Byte> -> bool): seq<Event>
    requires from <= end <= |o.content|
  {
    var text := Strip(o.content[from..end]);
    if blank(text) then [] else [Event(o.launchId, o.labelText, text, end)]
  }

  /** The events of the simple cutter from `from` on. */
  function Stream(o: Output, from: nat, blank: seq<Byte> -> bool): seq<Event>
    requires from <= |o.content|
    decreases |o.content| - from
  {
    var end := Cut(o.content, from, o.terminal);
    if end.None? then [] else Shown(o, from, end.value, blank) + Stream(o, end.value, blank)
  }

  /** The events an item still owes: those past its acknowledged offset. */
  function Owed(s: Source, blank: seq<Byte> -> bool): seq<Event> {
    if s.isRelaunchedMonitor && s.readable && s.delivered <= |s.output.content|
    then Stream(s.output, s.delivered, blank) else []
  }

  function AllOwed(sources: seq<Source>, blank: seq<Byte> -> bool): seq<Event> {
    if sources == [] then [] else AllOwed(sources[..|sources| - 1], blank) + Owed(sources[|sources| - 1], blank)
  }

  /** The relaunched monitors among the sources whose output can be read. */
  function ReadableMonitors(sources: seq<Source>): seq<Source> {
    if sources == [] then []
    else
      var before, last := ReadableMonitors(sources[..|sources| - 1]), sources[|sources| - 1];
      if last.isRelaunchedMonitor && last.readable then before + [last] else before
  }

  /** Only those owe events. */
  lemma {:induction false} OnlyReadableMonitorsOwe(sources: seq<Source>, blank: seq<Byte> -> bool)
    ensures AllOwed(sources, blank) == AllOwed(ReadableMonitors(sources), blank)
  {
    if sources != [] {
      var front, last := sources[..|sources| - 1], sources[|sources| - 1];
      OnlyReadableMonitorsOwe(front, blank);
      assert (ReadableMonitors(front) + [last])[..|ReadableMonitors(front)|] == ReadableMonitors(front);
    }
  }

  // ----- The window reader -----

  method IndexOfNewline(chunk: seq<Byte>, from: nat) returns (i: int)
    requires from <= |chunk|
    ensures i == -1 ==> forall k :: from <= k < |chunk| ==> chunk[k] != NEWLINE
    ensures i != -1 ==> from <= i < |chunk| && chunk[i] == NEWLINE && forall k :: from <= k < i ==> chunk[k] != NEWLINE
  {
    i := from;
    while i < |chunk|
      invariant from <= i <= |chunk|
      invariant forall k :: from <= k < i ==> chunk[k] != NEWLINE
    {
      if chunk[i] == NEWLINE {
        return;
      }
      i := i + 1;
    }
    i := -1;
  }

  /** The chunk a window read gives. */
  ghost predicate Window(o: Output, offset: nat, chunk: seq<Byte>) {
    && offset <= |o.content| && |chunk| == Min(WINDOW, |o.content| - offset)
    && chunk == o.content[offset..offset + |chunk|]
  }

  ghost predicate NoNewline(chunk: seq<Byte>, from: int, to: int) {
    forall k :: 0 <= from <= k < to <= |chunk| ==> chunk[k] != NEWLINE
  }

  /**
   `rest` gives the events from each offset on. The reader's methods know this much of it, not
   how it is computed.
   */
  ghost predicate Follows(o: Output, rest: nat -> seq<Event>, blank: seq<Byte> -> bool) {
    forall from: nat :: from <= |o.content| ==>
      var end := Cut(o.content, from, o.terminal);
      rest(from) == if end.None? then [] else Shown(o, from, end.value, blank) + rest(end.value)
  }

  lemma PieceShown(o: Output, offset: nat, chunk: seq<Byte>, pos: nat, end: nat, blank: seq<Byte> -> bool)
    requires Window(o, offset, chunk) && pos <= end <= |chunk|
    ensures var text := Strip(chunk[pos..end]);
            Shown(o, offset + pos, offset + end, blank)
            == if blank(text) then [] else [Event(o.launchId, o.labelText, text, offset + end)]
  {
    SliceOfSlice(o.content, offset, offset + |chunk|, pos, end);
  }

  lemma RestFromPiece(o: Output, rest: nat -> seq<Event>, blank: seq<Byte> -> bool, from: nat, end: nat,
                      found: seq<Event>)
    requires from <= |o.content| && Follows(o, rest, blank) && Cut(o.content, from, o.terminal) == Some(end)
    ensures (found + Shown(o, from, end, blank)) + rest(end) == found + rest(from)
  {
    ConcatAssociative(found, Shown(o, from, end, blank), rest(end));
  }

  /** Takes chunk[pos..end], the cutter's next piece: an event unless its text is blank. */
  method TakePiece(o: Output, events: seq<Event>, offset: nat, chunk: seq<Byte>, pos: nat, end: nat,
                   blank: seq<Byte> -> bool, ghost rest: nat -> seq<Event>)
    returns (more: seq<Event>)
    requires Window(o, offset, chunk) && pos <= end <= |chunk| && Follows(o, rest, blank)
    requires Cut(o.content, offset + pos, o.terminal) == Some(offset + end)
    ensures more + rest(offset + end) == events + rest(offset + pos) && |more| <= |events| + 1
  {
    PieceShown(o, offset, chunk, pos, end, blank);
    RestFromPiece(o, rest, blank, offset + pos, offset + end, events);
    var text := Strip(chunk[pos..end]);
    more := events;
    if !blank(text) {
      more := more + [Event(o.launchId, o.labelText, text, offset + end)];
    }
    assert more == events + Shown(o, offset + pos, offset + end, blank);
  }

  lemma CutAtNewline(o: Output, offset: nat, chunk: seq<Byte>, pos: nat, nl: nat)
    requires Window(o, offset, chunk) && pos <= nl < |chunk| && chunk[nl] == NEWLINE && NoNewline(chunk, pos, nl)
    ensures Cut(o.content, offset + pos, o.terminal) == Some(offset + nl + 1)
  {
    FirstNewline(o.content, offset + pos);
    assert forall k :: offset + pos <= k < offset + nl ==> o.content[k] == chunk[k - offset];
    assert o.content[offset + nl] == chunk[nl];
  }

  /** The part of a window with no newline left in it: how the cutter goes on from there. */
  lemma CutRestOfWindow(o: Output, offset: nat, chunk: seq<Byte>, pos: nat)
    requires Window(o, offset, chunk) && pos <= |chunk| && NoNewline(chunk, pos, |chunk|)
    ensures offset + |chunk| == |o.content| ==>
              Cut(o.content, offset + pos, o.terminal)
              == if o.terminal && pos < |chunk| then Some(|o.content|) else None
    ensures offset + |chunk| < |o.content| && pos == 0 ==> Cut(o.content, offset, o.terminal) == Some(offset + |chunk|)
  {
    FirstNewline(o.content, offset + pos);
    assert forall k :: offset + pos <= k < offset + |chunk| ==> o.content[k] == chunk[k - offset];
  }

  /** Takes the lines that end inside the chunk. */
  method TakeLines(o: Output, offset: nat, chunk: seq<Byte>, found: seq<Event>, maxEvents: nat,
                   blank: seq<Byte> -> bool, ghost rest: nat -> seq<Event>)
    returns (events: seq<Event>, pos: nat)
    requires Window(o, offset, chunk) && |found| <= maxEvents && Follows(o, rest, blank)
    ensures pos <= |chunk| && |events| <= maxEvents
    ensures events + rest(offset + pos) == found + rest(offset)
    ensures |events| < maxEvents ==> NoNewline(chunk, pos, |chunk|)
  {
    events, pos := found, 0;
    var nl := IndexOfNewline(chunk, 0);
    while nl >= 0 && |events| < maxEvents
      invariant pos <= |chunk| && |events| <= maxEvents
      invariant nl == -1 || (pos <= nl < |chunk| && chunk[nl] == NEWLINE)
      invariant NoNewline(chunk, pos, if nl == -1 then |chunk| else nl)
      invariant events + rest(offset + pos) == found + rest(offset)
      decreases |chunk| - pos, nl
    {
      CutAtNewline(o, offset, chunk, pos, nl);
      events := TakePiece(o, events, offset, chunk, pos, nl + 1, blank, rest);
      pos := nl + 1;
      nl := IndexOfNewline(chunk, pos);
    }
  }

  lemma CutAtEnd(content: seq<Byte>, terminal: bool)
    ensures Cut(content, |content|, terminal) == None
  {
  }

  /** Takes what is left of a window without a newline, or the tail of a finished file. */
  method TakeTail(o: Output, offset: nat, chunk: seq<Byte>, eof: bool, found: seq<Event>, start: nat,
                  blank: seq<Byte> -> bool, ghost rest: nat -> seq<Event>)
    returns (events: seq<Event>, pos: nat)
    requires Window(o, offset, chunk) && start <= |chunk| && NoNewline(chunk, start, |chunk|) && Follows(o, rest, blank)
    requires eof == (offset + |chunk| == |o.content|)
    ensures start <= pos <= |chunk| && |events| <= |found| + 1
    ensures events + rest(offset + pos) == found + rest(offset + start)
    ensures eof ==> rest(offset + pos) == []
    ensures !eof && 0 < |chunk| ==> 0 < pos
  {
    events, pos := found, start;
    CutRestOfWindow(o, offset, chunk, start);
    if start < |chunk| {
      var windowWithoutNewline := !eof && start == 0;
      var finalTail := eof && o.terminal;
      if windowWithoutNewline || finalTail {
        events := TakePiece(o, events, offset, chunk, start, |chunk|, blank, rest);
        pos := |chunk|;
      }
    }
    CutAtEnd(o.content, o.terminal);
  }

  /** Reads the item's events from `start` on after those in `found`, up to `maxEvents` in all. */
  method ReadItem(o: Output, start: nat, found: seq<Event>, maxEvents: nat, blank: seq<Byte> -> bool,
                  ghost rest: nat -> seq<Event>)
    returns (events: seq<Event>)
    requires |found| <= maxEvents && start <= |o.content| && Follows(o, rest, blank)
    ensures events == Take(found + rest(start), maxEvents)
  {
    events := found;
    var offset := start;
    while |events| < maxEvents
      invariant |events| <= maxEvents && offset <= |o.content|
      invariant events + rest(offset) == found + rest(start)
      decreases |o.content| - offset
    {
      var read := ReadBounded(o.content, offset, WINDOW);
      if |read.bytes| == 0 {
        CutAtEnd(o.content, o.terminal);
        return;
      }
      var chunk, eof := read.bytes, read.next.None?;
      var pos: nat;
      events, pos := TakeLines(o, offset, chunk, events, maxEvents, blank, rest);
      if |events| < maxEvents {
        events, pos := TakeTail(o, offset, chunk, eof, events, pos, blank, rest);
      }
      if pos == 0 || eof {
        return;
      }
      offset := read.offset + pos;
    }
  }

  /** The events from an offset on, as a function of the offset. */
  ghost function StreamAt(o: Output, blank: seq<Byte> -> bool): (rest: nat -> seq<Event>)
    ensures Follows(o, rest, blank)
  {
    (from: nat) => if from <= |o.content| then Stream(o, from, blank) else []
  }

  method ReadSource(s: Source, found: seq<Event>, maxEvents: nat, blank: seq<Byte> -> bool) returns (events: seq<Event>)
    requires |found| <= maxEvents && s.isRelaunchedMonitor
    ensures events == Take(found + Owed(s, blank), maxEvents)
  {
    events := found;
    if s.readable && s.delivered <= |s.output.content| {
      events := ReadItem(s.output, s.delivered, found, maxEvents, blank, StreamAt(s.output, blank));
    }
  }

  lemma {:induction false} LaterItems(sources: seq<Source>, k: nat, blank: seq<Byte> -> bool)
    requires k <= |sources|
    ensures AllOwed(sources[..k], blank) <= AllOwed(sources, blank)
    decreases |sources|
  {
    assert sources[..|sources|] == sources;
    if k < |sources| {
      var front := sources[..|sources| - 1];
      assert front[..k] == sources[..k];
      LaterItems(front, k, blank);
    }
  }

  /** The events of all listed items, up to `maxEvents`. */
  method PendingMonitorEvents(sources: seq<Source>, maxEvents: nat, blank: seq<Byte> -> bool)
    returns (events: seq<Event>)
    ensures events == Take(AllOwed(sources, blank), maxEvents)
  {
    events := [];
    for k := 0 to |sources|
      invariant events == Take(AllOwed(sources[..k], blank), maxEvents)
    {
      assert sources[..k + 1][..k] == sources[..k];
      if |events| >= maxEvents {
        LaterItems(sources, k, blank);
        return;
      }
      assert AllOwed(sources[..k + 1], blank) == AllOwed(sources[..k], blank) + Owed(sources[k], blank);
      assert events == AllOwed(sources[..k], blank);
      if sources[k].isRelaunchedMonitor {
        events := ReadSource(sources[k], events, maxEvents, blank);
      }
    }
    assert sources[..|sources|] == sources;
  }

  // ----- What the stream guarantees -----

  /** Where the last whole piece from `from` ends. */
  function LastEnd(content: seq<Byte>, from: nat, terminal: bool): (end: nat)
    requires from <= |content|
    ensures from <= end <= |content|
    decreases |content| - from
  {
    var end := Cut(content, from, terminal);
    if end.None? then from else LastEnd(content, end.value, terminal)
  }

  /** Nothing of a finished file is left over, and of a growing one only an unfinished line within the window. */
  lemma {:induction false} PiecesLeaveOnlyAnOpenLine(content: seq<Byte>, from: nat, terminal: bool)
    requires from <= |content|
    ensures var end := LastEnd(content, from, terminal);
      && (terminal ==> end == |content|)
      && |content| - end <= WINDOW && forall k :: end <= k < |content| ==> content[k] != NEWLINE
    decreases |content| - from
  {
    var end := Cut(content, from, terminal);
    if end.None? {
      FirstNewline(content, from);
    } else {
      PiecesLeaveOnlyAnOpenLine(content, end.value, terminal);
    }
  }

  /** Resuming where a yielded event ends yields exactly the events after it. */
  lemma {:induction false} ResumeAfterEvent(o: Output, from: nat, k: nat, blank: seq<Byte> -> bool)
    requires from <= |o.content| && k < |Stream(o, from, blank)|
    ensures var end := Stream(o, from, blank)[k].endOffset;
            from < end <= |o.content| && Stream(o, end, blank) == Stream(o, from, blank)[k + 1..]
    decreases |o.content| - from
  {
    var end := Cut(o.content, from, o.terminal).value;
    var shown, later := Shown(o, from, end, blank), Stream(o, end, blank);
    assert Stream(o, from, blank) == shown + later;
    if k >= |shown| {
      ResumeAfterEvent(o, end, k - |shown|, blank);
      assert (shown + later)[k] == later[k - |shown|];
      assert (shown + later)[k + 1..] == later[k - |shown| + 1..];
    } else {
      assert (shown + later)[k + 1..] == later;
    }
  }

  /** A cut made in a growing file is made at the same place after it has grown. */
  lemma {:induction false} NewlineStays(content: seq<Byte>, more: seq<Byte>, from: nat)
    requires from <= |content|
    ensures var i := NewlineFrom(content, from); i < |content| ==> NewlineFrom(content + more, from) == i
    ensures NewlineFrom(content, from) == |content| ==> |content| <= NewlineFrom(content + more, from)
    decreases |content| - from
  {
    if from < |content| {
      assert (content + more)[from] == content[from];
      if content[from] != NEWLINE {
        NewlineStays(content, more, from + 1);
      }
    }
  }

  function Grown(o: Output, more: seq<Byte>, terminal: bool): Output {
    o.(content := o.content + more, terminal := terminal)
  }

  lemma CutStays(o: Output, more: seq<Byte>, terminal: bool, from: nat, blank: seq<Byte> -> bool)
    requires from <= |o.content| && !o.terminal && Cut(o.content, from, false).Some?
    ensures var end := Cut(o.content, from, false);
            Cut(o.content + more, from, terminal) == end
            && Shown(Grown(o, more, terminal), from, end.value, blank) == Shown(o, from, end.value, blank)
  {
    NewlineStays(o.content, more, from);
    var end := Cut(o.content, from, false).value;
    assert (o.content + more)[from..end] == o.content[from..end];
  }

  lemma PrefixUnder<T>(x: seq<T>, a: seq<T>, b: seq<T>)
    requires a <= b
    ensures x + a <= x + b
  {
  }

  /** A growing file goes on, where its whole pieces end, from what it has yielded. */
  lemma {:induction false} GrowthGoesOn(o: Output, more: seq<Byte>, terminal: bool, from: nat, blank: seq<Byte> -> bool)
    requires from <= |o.content| && !o.terminal
    ensures var grown := Grown(o, more, terminal);
            Stream(grown, from, blank)
            == Stream(o, from, blank) + Stream(grown, LastEnd(o.content, from, false), blank)
    decreases |o.content| - from
  {
    var end := Cut(o.content, from, false);
    var grown := Grown(o, more, terminal);
    if end.Some? {
      CutStays(o, more, terminal, from, blank);
      GrowthGoesOn(o, more, terminal, end.value, blank);
      ConcatAssociative(Shown(o, from, end.value, blank), Stream(o, end.value, blank),
                        Stream(grown, LastEnd(o.content, from, false), blank));
    }
  }

  /** What a growing file has yielded stays the beginning of what it yields later. */
  lemma GrowthKeepsEvents(o: Output, more: seq<Byte>, terminal: bool, from: nat, blank: seq<Byte> -> bool)
    requires from <= |o.content| && !o.terminal
    ensures Stream(o, from, blank) <= Stream(Grown(o, more, terminal), from, blank)
  {
    GrowthGoesOn(o, more, terminal, from, blank);
  }

  // ----- Writing after the end -----

  /** Where the last line of the file begins, when it is not ended and fits a window. */
  function OpenLine(content: seq<Byte>): (start: Option<nat>)
    ensures start.Some? ==> start.value < |content|
  {
    var p := LastEnd(content, 0, false);
    if p < |content| && |content| - p < WINDOW then Some(p) else None
  }

  /** The event of a finished file's last line that is not ended. */
  function OpenEvents(o: Output, blank: seq<Byte> -> bool): (events: seq<Event>)
    ensures |events| <= 1
  {
    var p := OpenLine(o.content);
    if o.terminal && p.Some? then Shown(o, p.value, |o.content|, blank) else []
  }

  lemma {:induction false} WholePiecesEnd(content: seq<Byte>, from: nat)
    requires from <= |content|
    ensures Cut(content, LastEnd(content, from, false), false) == None
    decreases |content| - from
  {
    var end := Cut(content, from, false);
    if end.Some? {
      WholePiecesEnd(content, end.value);
    }
  }

  /** Behind the last whole piece a file yields nothing that ends inside an open line. */
  lemma BehindAnOpenLine(o: Output, start: nat, size: nat, blank: seq<Byte> -> bool)
    requires start < size < |o.content| && size - start < WINDOW
    requires forall k :: start <= k < size ==> o.content[k] != NEWLINE
    ensures forall e <- Stream(o, start, blank) :: size < e.endOffset
  {
    FirstNewline(o.content, start);
    var end := Cut(o.content, start, o.terminal);
    if end.Some? {
      assert size < end.value;
      forall e <- Stream(o, start, blank) ensures size < e.endOffset {
        if e !in Shown(o, start, end.value, blank) {
          var k :| 0 <= k < |Stream(o, end.value, blank)| && Stream(o, end.value, blank)[k] == e;
          ResumeAfterEvent(o, end.value, k, blank);
        }
      }
    }
  }

  lemma {:induction false} EventsInWholePieces(o: Output, from: nat, e: Event, blank: seq<Byte> -> bool)
    requires from <= |o.content| && !o.terminal && e in Stream(o, from, blank)
    ensures e.endOffset <= LastEnd(o.content, from, false)
    decreases |o.content| - from
  {
    var end := Cut(o.content, from, false).value;
    if e !in Shown(o, from, end, blank) {
      EventsInWholePieces(o, end, e, blank);
    }
  }

  /** A file grown behind an open line yields no event that ends where the file did. */
  lemma OpenLineIsGone(content: seq<Byte>, o: Output, e: Event, blank: seq<Byte> -> bool)
    requires content <= o.content && |content| < |o.content| && OpenLine(content).Some? && e.endOffset == |content|
    ensures e !in Stream(o, 0, blank)
  {
    var p, more := OpenLine(content).value, o.content[|content|..];
    var before := o.(content := content, terminal := false);
    assert Grown(before, more, o.terminal) == o by {
      assert content + more == o.content;
    }
    GrowthGoesOn(before, more, o.terminal, 0, blank);
    PiecesLeaveOnlyAnOpenLine(content, 0, false);
    BehindAnOpenLine(o, p, |content|, blank);
    forall e <- Stream(before, 0, blank) ensures e.endOffset <= p {
      EventsInWholePieces(before, 0, e, blank);
    }
  }

  /** A finished file yields what it would growing, and then what is left. */
  lemma FinishedYieldsTheRest(o: Output, blank: seq<Byte> -> bool)
    requires o.terminal
    ensures var p := LastEnd(o.content, 0, false);
            Stream(o, 0, blank) == Stream(o.(terminal := false), 0, blank)
                                   + if p < |o.content| then Shown(o, p, |o.content|, blank) else []
  {
    var before, p := o.(terminal := false), LastEnd(o.content, 0, false);
    assert Grown(before, [], true) == o by {
      assert o.content + [] == o.content;
    }
    GrowthGoesOn(before, [], true, 0, blank);
    WholePiecesEnd(o.content, 0);
    CutAtEnd(o.content, true);
    if p < |o.content| {
      PiecesLeaveOnlyAnOpenLine(o.content, 0, false);
      FirstNewline(o.content, p);
      assert Cut(o.content, p, true) == Some(|o.content|);
      assert Stream(o, |o.content|, blank) == [];
    }
  }

  /** What follows the whole pieces of a finished file, when it is written again, is what followed them at the end. */
  lemma FullWindowStays(o: Output, more: seq<Byte>, p: nat, blank: seq<Byte> -> bool)
    requires o.terminal && more != [] && p + WINDOW == |o.content|
             && forall k :: p <= k < |o.content| ==> o.content[k] != NEWLINE
    ensures Shown(o, p, |o.content|, blank) <= Stream(Grown(o, more, true), p, blank)
  {
    var grown := Grown(o, more, true);
    FirstNewline(grown.content, p);
    assert forall k :: p <= k < |o.content| ==> grown.content[k] == o.content[k];
    assert Cut(grown.content, p, true) == Some(|o.content|);
    assert grown.content[p..|o.content|] == o.content[p..|o.content|];
  }

  /** Written again after its end, a file keeps what it yielded but for the event of an open line. */
  lemma LateWriteKeepsTheRest(o: Output, more: seq<Byte>, blank: seq<Byte> -> bool)
    requires o.terminal && more != []
    ensures var before, later := Stream(o.(terminal := false), 0, blank), Stream(Grown(o, more, true), 0, blank);
      && before <= later
      && (OpenEvents(o, blank) == [] ==> Stream(o, 0, blank) <= later)
      && (OpenEvents(o, blank) != [] ==> Stream(o, 0, blank) == before + OpenEvents(o, blank))
  {
    var growing, p := o.(terminal := false), LastEnd(o.content, 0, false);
    assert Grown(growing, more, true) == Grown(o, more, true);
    GrowthGoesOn(growing, more, true, 0, blank);
    FinishedYieldsTheRest(o, blank);
    PiecesLeaveOnlyAnOpenLine(o.content, 0, false);
    if p < |o.content| && OpenLine(o.content).None? {
      FullWindowStays(o, more, p, blank);
      PrefixUnder(Stream(growing, 0, blank), Shown(o, p, |o.content|, blank), Stream(Grown(o, more, true), p, blank));
    }
  }

  /** It keeps all it yielded exactly when its last line was ended, blank, or a full window. */
  lemma LateWriteKeepsEventsIff(o: Output, more: seq<Byte>, blank: seq<Byte> -> bool)
    requires o.terminal && more != []
    ensures Stream(o, 0, blank) <= Stream(Grown(o, more, true), 0, blank) <==> OpenEvents(o, blank) == []
  {
    LateWriteKeepsTheRest(o, more, blank);
    if OpenEvents(o, blank) != [] {
      var e := OpenEvents(o, blank)[0];
      OpenLineIsGone(o.content, Grown(o, more, true), e, blank);
      assert e in Stream(o, 0, blank);
    }
  }
}
