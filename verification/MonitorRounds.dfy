/**
 Prompts and acknowledgements of relaunched monitors. A prompt shows the first events all items
 owe, under one shared cap; its notice comes back in the recording later, if at all, and moves
 each item's durable offset forward.
 */
module MonitorRounds {
  import opened Basics
  import opened OutputReads
  import opened MonitorEvents
  import Delivery

  /** The store's guarded update: an offset only moves forward. */
  function Mark(delivered: nat, endOffset: nat): nat {
    if delivered < endOffset then endOffset else delivered
  }

  function MarkAll(delivered: nat, events: seq<Event>): nat {
    if events == [] then delivered else Mark(MarkAll(delivered, events[..|events| - 1]), events[|events| - 1].endOffset)
  }

  /** Those of the events that belong to one launch. */
  function EventsOf(events: seq<Event>, launchId: string): seq<Event> {
    if events == [] then [] else
      var last := events[|events| - 1];
      EventsOf(events[..|events| - 1], launchId) + if last.launchId == launchId then [last] else []
  }

  /** What a prompt shows: at most twenty events over all items together. */
  function ShownAtPrompt(owed: seq<Event>): seq<Event> {
    Take(Take(owed, Delivery.MAX_EVENTS_PER_PROMPT + 1), Delivery.MAX_EVENTS_PER_PROMPT)
  }

  function Acknowledge(s: Source, notice: seq<Event>): Source {
    s.(delivered := MarkAll(s.delivered, EventsOf(notice, s.output.launchId)))
  }

  function AcknowledgeIn(sources: seq<Source>, notice: seq<Event>): seq<Source> {
    seq(|sources|, k requires 0 <= k < |sources| => Acknowledge(sources[k], notice))
  }

  /** The listed items, what each prompt has shown, and which of those notices were seen back. */
  datatype Room = Room(sources: seq<Source>, notices: seq<seq<Event>>, acknowledged: set<nat>)

  /**
   A monitor writes or finishes, its output becomes readable or unreadable, a prompt shows what
   is owed, or an earlier notice is seen back: late, again, out of order or never.
   */
  datatype Round =
    | Write(k: nat, more: seq<Byte>)
    | Finish(k: nat)
    | Access(k: nat, readable: bool)
    | Prompt
    | SeenBack(j: nat)

  /** A finished item stays finished, and its process may still write. */
  function Written(s: Source, more: seq<Byte>, terminal: bool): Source {
    s.(output := Grown(s.output, more, s.output.terminal || terminal))
  }

  /** The same launches in the same order. */
  ghost predicate SameLaunches(sources: seq<Source>, others: seq<Source>) {
    && |sources| == |others|
    && forall k :: 0 <= k < |sources| ==> sources[k].output.launchId == others[k].output.launchId
  }

  function Play(r: Room, round: Round, blank: seq<Byte> -> bool): (q: Room)
    ensures SameLaunches(r.sources, q.sources)
  {
    match round
    case Write(k, more) =>
      if k < |r.sources| then r.(sources := r.sources[k := Written(r.sources[k], more, false)]) else r
    case Finish(k) =>
      if k < |r.sources| then r.(sources := r.sources[k := Written(r.sources[k], [], true)]) else r
    case Access(k, readable) =>
      if k < |r.sources| then r.(sources := r.sources[k := r.sources[k].(readable := readable)]) else r
    case Prompt => r.(notices := r.notices + [ShownAtPrompt(AllOwed(r.sources, blank))])
    case SeenBack(j) =>
      if j < |r.notices|
      then r.(sources := AcknowledgeIn(r.sources, r.notices[j]), acknowledged := r.acknowledged + {j}) else r
  }

  function PlayAll(r: Room, rounds: seq<Round>, blank: seq<Byte> -> bool): Room {
    if rounds == [] then r else Play(PlayAll(r, rounds[..|rounds| - 1], blank), rounds[|rounds| - 1], blank)
  }

  ghost predicate DistinctLaunches(sources: seq<Source>) {
    sources == []
    || (DistinctLaunches(sources[..|sources| - 1])
        && forall s <- sources[..|sources| - 1] :: s.output.launchId != sources[|sources| - 1].output.launchId)
  }

  lemma {:induction false} StayDistinct(sources: seq<Source>, others: seq<Source>)
    requires DistinctLaunches(sources) && SameLaunches(sources, others)
    ensures DistinctLaunches(others)
  {
    if others != [] {
      StayDistinct(sources[..|sources| - 1], others[..|others| - 1]);
      forall s <- others[..|others| - 1] ensures s.output.launchId != others[|others| - 1].output.launchId {
        var k :| 0 <= k < |others| - 1 && others[k] == s;
        assert sources[..|sources| - 1][k] == sources[k];
      }
    }
  }

  /** Nothing acknowledged yet, and no prompt so far. */
  ghost predicate Fresh(r: Room) {
    && DistinctLaunches(r.sources) && r.notices == [] && r.acknowledged == {}
    && forall s <- r.sources :: s.delivered == 0
  }

  /** An event some acknowledged notice has shown. */
  ghost predicate SeenBackIn(e: Event, notices: seq<seq<Event>>, acknowledged: set<nat>) {
    exists j: nat :: j in acknowledged && j < |notices| && e in notices[j]
  }

  // ----- One launch's part of a notice -----

  lemma {:induction false} EventsOfConcat(x: seq<Event>, y: seq<Event>, launchId: string)
    ensures EventsOf(x + y, launchId) == EventsOf(x, launchId) + EventsOf(y, launchId)
  {
    if y == [] {
      assert x + y == x;
    } else {
      var front := y[..|y| - 1];
      EventsOfConcat(x, front, launchId);
      assert (x + y)[..|x + y| - 1] == x + front;
    }
  }

  lemma {:induction false} EventsOfHolds(events: seq<Event>, launchId: string)
    ensures forall e :: e in EventsOf(events, launchId) <==> e in events && e.launchId == launchId
  {
    if events != [] {
      EventsOfHolds(events[..|events| - 1], launchId);
      assert events == events[..|events| - 1] + [events[|events| - 1]];
    }
  }

  /** Events all of one launch are that launch's part, and no other's. */
  lemma {:induction false} EventsOfOne(events: seq<Event>, owner: string, launchId: string)
    requires forall e <- events :: e.launchId == owner
    ensures EventsOf(events, launchId) == if owner == launchId then events else []
  {
    if events != [] {
      var front := events[..|events| - 1];
      EventsOfOne(front, owner, launchId);
      assert events == front + [events[|events| - 1]];
    }
  }

  lemma {:induction false} StreamIsTheItems(o: Output, from: nat, blank: seq<Byte> -> bool)
    requires from <= |o.content|
    ensures forall e <- Stream(o, from, blank) :: e.launchId == o.launchId
    decreases |o.content| - from
  {
    var end := Cut(o.content, from, o.terminal);
    if end.Some? {
      StreamIsTheItems(o, end.value, blank);
    }
  }

  lemma OwedPart(s: Source, launchId: string, blank: seq<Byte> -> bool)
    ensures EventsOf(Owed(s, blank), launchId) == if s.output.launchId == launchId then Owed(s, blank) else []
  {
    if s.delivered <= |s.output.content| {
      StreamIsTheItems(s.output, s.delivered, blank);
    }
    EventsOfOne(Owed(s, blank), s.output.launchId, launchId);
  }

  lemma {:induction false} OthersOwe(sources: seq<Source>, launchId: string, blank: seq<Byte> -> bool)
    requires forall s <- sources :: s.output.launchId != launchId
    ensures EventsOf(AllOwed(sources, blank), launchId) == []
  {
    if sources != [] {
      var front, last := sources[..|sources| - 1], sources[|sources| - 1];
      OthersOwe(front, launchId, blank);
      OwedPart(last, launchId, blank);
      EventsOfConcat(AllOwed(front, blank), Owed(last, blank), launchId);
    }
  }

  lemma JoinedPart(x: seq<Event>, y: seq<Event>, launchId: string, all: seq<Event>, part: seq<Event>)
    requires all == x + y
    requires (EventsOf(x, launchId) == part && EventsOf(y, launchId) == [])
             || (EventsOf(x, launchId) == [] && EventsOf(y, launchId) == part)
    ensures EventsOf(all, launchId) == part
  {
    EventsOfConcat(x, y, launchId);
  }

  lemma LastPart(sources: seq<Source>, s: Source, blank: seq<Byte> -> bool)
    requires sources != []
    requires var last := sources[|sources| - 1];
      (s == last || s.output.launchId != last.output.launchId)
      && EventsOf(AllOwed(sources[..|sources| - 1], blank), s.output.launchId)
         == if s == last then [] else Owed(s, blank)
    ensures EventsOf(AllOwed(sources, blank), s.output.launchId) == Owed(s, blank)
  {
    var front, last := sources[..|sources| - 1], sources[|sources| - 1];
    OwedPart(last, s.output.launchId, blank);
    JoinedPart(AllOwed(front, blank), Owed(last, blank), s.output.launchId, AllOwed(sources, blank), Owed(s, blank));
  }

  /** Of everything owed, one launch's part is what its own item owes. */
  lemma {:induction false} PartOfAllOwed(sources: seq<Source>, k: nat, blank: seq<Byte> -> bool)
    requires DistinctLaunches(sources) && k < |sources|
    ensures EventsOf(AllOwed(sources, blank), sources[k].output.launchId) == Owed(sources[k], blank)
  {
    if k < |sources| - 1 {
      PartOfAllOwed(sources[..|sources| - 1], k, blank);
    } else {
      OthersOwe(sources[..k], sources[k].output.launchId, blank);
    }
    LastPart(sources, sources[k], blank);
  }

  /** A prompt shows the first events an item owes, possibly none of them. */
  lemma PartOfNotice(sources: seq<Source>, k: nat, n: nat, blank: seq<Byte> -> bool)
    requires DistinctLaunches(sources) && k < |sources| && n <= |AllOwed(sources, blank)|
    ensures EventsOf(AllOwed(sources, blank)[..n], sources[k].output.launchId) <= Owed(sources[k], blank)
  {
    var owed := AllOwed(sources, blank);
    PartOfAllOwed(sources, k, blank);
    assert owed == owed[..n] + owed[n..];
    EventsOfConcat(owed[..n], owed[n..], sources[k].output.launchId);
  }

  // ----- What every run of rounds keeps -----

  /** The offset at which the first `n` events end. */
  function EndOf(all: seq<Event>, n: nat): nat
    requires n <= |all|
  {
    if n == 0 then 0 else all[n - 1].endOffset
  }

  /** The events' ends rise, from past the start of the file. */
  ghost predicate Rising(all: seq<Event>) {
    forall m: nat, n: nat :: m < n <= |all| ==> EndOf(all, m) < EndOf(all, n)
  }

  lemma InTheRest<T>(s: seq<T>, from: nat, k: nat)
    requires from <= k < |s|
    ensures |s[from..]| == |s| - from && s[from..][k - from] == s[k]
  {
  }

  lemma EndsBeyond(o: Output, from: nat, k: nat, blank: seq<Byte> -> bool)
    requires from <= |o.content| && k < |Stream(o, from, blank)|
    ensures from < Stream(o, from, blank)[k].endOffset <= |o.content|
  {
    ResumeAfterEvent(o, from, k, blank);
  }

  lemma LaterEndsLater(o: Output, from: nat, j: nat, k: nat, blank: seq<Byte> -> bool)
    requires from <= |o.content| && j < k < |Stream(o, from, blank)|
    ensures Stream(o, from, blank)[j].endOffset < Stream(o, from, blank)[k].endOffset
  {
    ResumeAfterEvent(o, from, j, blank);
    InTheRest(Stream(o, from, blank), j + 1, k);
    EndsBeyond(o, Stream(o, from, blank)[j].endOffset, k - (j + 1), blank);
  }

  lemma EndsRise(o: Output, from: nat, m: nat, n: nat, blank: seq<Byte> -> bool)
    requires from <= |o.content| && m < n <= |Stream(o, from, blank)|
    ensures EndOf(Stream(o, from, blank), m) < EndOf(Stream(o, from, blank), n)
  {
    if m == 0 {
      EndsBeyond(o, from, n - 1, blank);
    } else {
      LaterEndsLater(o, from, m - 1, n - 1, blank);
    }
  }

  lemma StreamRises(o: Output, from: nat, blank: seq<Byte> -> bool)
    requires from <= |o.content|
    ensures var all := Stream(o, from, blank); Rising(all) && (all != [] ==> from < all[0].endOffset)
  {
    var all := Stream(o, from, blank);
    if all != [] {
      EndsBeyond(o, from, 0, blank);
    }
    forall m: nat, n: nat | m < n <= |all| ensures EndOf(all, m) < EndOf(all, n) {
      EndsRise(o, from, m, n, blank);
    }
  }

  lemma OwedAfter(o: Output, n: nat, blank: seq<Byte> -> bool)
    requires n <= |Stream(o, 0, blank)|
    ensures var end := EndOf(Stream(o, 0, blank), n);
            end <= |o.content| && Stream(o, end, blank) == Stream(o, 0, blank)[n..]
  {
    if n > 0 {
      ResumeAfterEvent(o, 0, n - 1, blank);
    }
  }

  lemma LastOfSlice<T>(s: seq<T>, a: nat, b: nat)
    requires a < b <= |s|
    ensures var slice := s[a..b]; slice[..|slice| - 1] == s[a..b - 1] && slice[|slice| - 1] == s[b - 1]
  {
  }

  /** Marking a run of events that begins no later than what is marked already. */
  lemma {:induction false} MarkingASlice(all: seq<Event>, n: nat, a: nat, b: nat)
    requires Rising(all) && n <= |all| && a <= b <= |all| && a <= n
    ensures MarkAll(EndOf(all, n), all[a..b]) == EndOf(all, if n < b then b else n)
  {
    if a < b {
      MarkingASlice(all, n, a, b - 1);
      LastOfSlice(all, a, b);
      assert EndOf(all, b) == all[b - 1].endOffset;
    }
  }

  /** The part shown joins on to the first `n` events, and lies inside them once seen back. */
  ghost predicate JoinsOn(shown: seq<Event>, all: seq<Event>, n: nat, acknowledged: bool) {
    exists a: nat, b: nat :: a <= b <= |all| && a <= n && (acknowledged ==> b <= n) && shown == all[a..b]
  }

  /**
   The first `n` of an item's events are acknowledged: the durable offset is where they end,
   each was in a notice that was seen back, and no notice's part skipped any.
   */
  ghost predicate KeepsUp(delivered: nat, all: seq<Event>, n: nat, parts: seq<seq<Event>>, acknowledged: set<nat>) {
    && n <= |all| && delivered == EndOf(all, n)
    && (forall j: nat :: j < |parts| ==> JoinsOn(parts[j], all, n, j in acknowledged))
    && (forall i :: 0 <= i < n ==> SeenBackIn(all[i], parts, acknowledged))
  }

  /** One launch's parts of the notices. */
  function Parts(notices: seq<seq<Event>>, launchId: string): seq<seq<Event>> {
    seq(|notices|, j requires 0 <= j < |notices| => EventsOf(notices[j], launchId))
  }

  ghost predicate SourceKeepsUp(s: Source, notices: seq<seq<Event>>, acknowledged: set<nat>, blank: seq<Byte> -> bool) {
    var parts := Parts(notices, s.output.launchId);
    exists n: nat :: KeepsUp(s.delivered, Stream(s.output, 0, blank), n, parts, acknowledged)
  }

  ghost predicate ItemInStep(r: Room, k: nat, blank: seq<Byte> -> bool)
    requires k < |r.sources|
  {
    SourceKeepsUp(r.sources[k], r.notices, r.acknowledged, blank)
  }

  ghost predicate InStep(r: Room, blank: seq<Byte> -> bool) {
    && DistinctLaunches(r.sources)
    && (forall j <- r.acknowledged :: j < |r.notices|)
    && (forall k :: 0 <= k < |r.sources| ==> ItemInStep(r, k, blank))
  }

  lemma JoinsOnMore(shown: seq<Event>, all: seq<Event>, all': seq<Event>, n: nat, acknowledged: bool)
    requires JoinsOn(shown, all, n, acknowledged) && all <= all'
    ensures JoinsOn(shown, all', n, acknowledged)
  {
    var a: nat, b: nat :| a <= b <= |all| && a <= n && (acknowledged ==> b <= n) && shown == all[a..b];
    assert all[a..b] == all'[a..b];
  }

  lemma StillJoinsOn(shown: seq<Event>, all: seq<Event>, n: nat, n': nat, acknowledged: bool)
    requires JoinsOn(shown, all, n, acknowledged) && n <= n'
    ensures JoinsOn(shown, all, n', acknowledged)
  {
    var a: nat, b: nat :| a <= b <= |all| && a <= n && (acknowledged ==> b <= n) && shown == all[a..b];
  }

  lemma MoreKeepsUp(delivered: nat, all: seq<Event>, all': seq<Event>, n: nat, parts: seq<seq<Event>>,
                    acknowledged: set<nat>)
    requires KeepsUp(delivered, all, n, parts, acknowledged) && all <= all'
    ensures KeepsUp(delivered, all', n, parts, acknowledged)
  {
    forall j: nat | j < |parts| ensures JoinsOn(parts[j], all', n, j in acknowledged) {
      JoinsOnMore(parts[j], all, all', n, j in acknowledged);
    }
    forall i | 0 <= i < n ensures SeenBackIn(all'[i], parts, acknowledged) {
      assert all'[i] == all[i];
    }
  }

  lemma NoticeKeepsUp(delivered: nat, all: seq<Event>, n: nat, parts: seq<seq<Event>>, acknowledged: set<nat>,
                      part: seq<Event>)
    requires KeepsUp(delivered, all, n, parts, acknowledged) && part <= all[n..]
    requires forall j <- acknowledged :: j < |parts|
    ensures KeepsUp(delivered, all, n, parts + [part], acknowledged)
  {
    assert part == all[n..n + |part|];
    forall i | 0 <= i < n ensures SeenBackIn(all[i], parts + [part], acknowledged) {
      var j: nat :| j in acknowledged && j < |parts| && all[i] in parts[j];
      assert (parts + [part])[j] == parts[j];
    }
  }

  /** How far the first events are acknowledged once a joining part is. */
  lemma JoiningPart(all: seq<Event>, n: nat, part: seq<Event>, acknowledged: bool) returns (n': nat)
    requires JoinsOn(part, all, n, acknowledged) && Rising(all) && n <= |all|
    ensures n <= n' <= |all| && MarkAll(EndOf(all, n), part) == EndOf(all, n') && JoinsOn(part, all, n', true)
    ensures forall i :: n <= i < n' ==> all[i] in part
  {
    var a: nat, b: nat :| a <= b <= |all| && a <= n && (acknowledged ==> b <= n) && part == all[a..b];
    MarkingASlice(all, n, a, b);
    n' := if n < b then b else n;
    forall i | n <= i < n' ensures all[i] in part {
      assert all[i] == part[i - a];
    }
  }

  /** A part seen back takes the acknowledged events up to where it ends. */
  lemma SeenBackKeepsUp(delivered: nat, all: seq<Event>, n: nat, parts: seq<seq<Event>>, acknowledged: set<nat>,
                        j: nat, n': nat)
    requires KeepsUp(delivered, all, n, parts, acknowledged) && j < |parts|
    requires n <= n' <= |all| && JoinsOn(parts[j], all, n', true) && forall i :: n <= i < n' ==> all[i] in parts[j]
    ensures KeepsUp(EndOf(all, n'), all, n', parts, acknowledged + {j})
  {
    forall i: nat | i < |parts| ensures JoinsOn(parts[i], all, n', i in acknowledged + {j}) {
      if i != j {
        StillJoinsOn(parts[i], all, n, n', i in acknowledged);
      }
    }
    forall i | 0 <= i < n' ensures SeenBackIn(all[i], parts, acknowledged + {j}) {
      if i < n {
        var l: nat :| l in acknowledged && l < |parts| && all[i] in parts[l];
      }
    }
  }

  lemma FirstPartGrows(delivered: nat, all: seq<Event>, n: nat, parts: seq<seq<Event>>, acknowledged: set<nat>, j: nat)
    requires KeepsUp(delivered, all, n, parts, acknowledged) && Rising(all) && j < |parts|
    ensures exists n': nat :: KeepsUp(MarkAll(delivered, parts[j]), all, n', parts, acknowledged + {j})
  {
    var n' := JoiningPart(all, n, parts[j], j in acknowledged);
    SeenBackKeepsUp(delivered, all, n, parts, acknowledged, j, n');
  }

  lemma JoinsOnFewer(part: seq<Event>, all: seq<Event>, last: Event, n: nat, acknowledged: bool)
    requires JoinsOn(part, all + [last], n, acknowledged) && last !in part && n <= |all|
    ensures JoinsOn(part, all, n, acknowledged)
  {
    var whole := all + [last];
    var a: nat, b: nat :| a <= b <= |whole| && a <= n && (acknowledged ==> b <= n) && part == whole[a..b];
    if a < b {
      LastOfSlice(whole, a, b);
    }
    assert whole[a..b] == all[a..b];
  }

  /** An event that no part holds is not among those acknowledged. */
  lemma FewerKeepsUp(delivered: nat, all: seq<Event>, last: Event, n: nat, parts: seq<seq<Event>>,
                     acknowledged: set<nat>)
    requires KeepsUp(delivered, all + [last], n, parts, acknowledged)
    requires forall part <- parts :: last !in part
    ensures KeepsUp(delivered, all, n, parts, acknowledged)
  {
    if n == |all| + 1 {
      assert false;
    }
    forall j: nat | j < |parts| ensures JoinsOn(parts[j], all, n, j in acknowledged) {
      assert parts[j] in parts;
      JoinsOnFewer(parts[j], all, last, n, j in acknowledged);
    }
    forall i | 0 <= i < n ensures SeenBackIn(all[i], parts, acknowledged) {
      assert all[i] == (all + [last])[i];
    }
  }

  /** The event of a finished item's open line, when some notice has shown it. */
  ghost predicate OpenLineShown(s: Source, notices: seq<seq<Event>>, blank: seq<Byte> -> bool) {
    exists j, e :: 0 <= j < |notices| && e in notices[j] && e in OpenEvents(s.output, blank)
  }

  lemma UnshownInParts(s: Source, e: Event, notices: seq<seq<Event>>, blank: seq<Byte> -> bool)
    requires !OpenLineShown(s, notices, blank) && e in OpenEvents(s.output, blank)
    ensures forall part <- Parts(notices, s.output.launchId) :: e !in part
  {
    var parts := Parts(notices, s.output.launchId);
    forall part <- parts ensures e !in part {
      var j :| 0 <= j < |parts| && parts[j] == part;
      EventsOfHolds(notices[j], s.output.launchId);
    }
  }

  lemma OpenEventIsLast(before: seq<Event>, open: seq<Event>, delivered: nat, later: seq<Event>, n: nat,
                        parts: seq<seq<Event>>, acknowledged: set<nat>)
    requires KeepsUp(delivered, before + open, n, parts, acknowledged) && |open| == 1 && before <= later
    requires forall part <- parts :: open[0] !in part
    ensures KeepsUp(delivered, later, n, parts, acknowledged)
  {
    assert open == [open[0]];
    FewerKeepsUp(delivered, before, open[0], n, parts, acknowledged);
    MoreKeepsUp(delivered, before, later, n, parts, acknowledged);
  }

  lemma LateWriteStaysInStep(s: Source, more: seq<Byte>, n: nat, notices: seq<seq<Event>>, acknowledged: set<nat>,
                             blank: seq<Byte> -> bool)
    requires s.output.terminal && more != [] && !OpenLineShown(s, notices, blank)
    requires KeepsUp(s.delivered, Stream(s.output, 0, blank), n, Parts(notices, s.output.launchId), acknowledged)
    ensures KeepsUp(s.delivered, Stream(Grown(s.output, more, true), 0, blank), n, Parts(notices, s.output.launchId),
                    acknowledged)
  {
    var parts, open := Parts(notices, s.output.launchId), OpenEvents(s.output, blank);
    var all, later := Stream(s.output, 0, blank), Stream(Grown(s.output, more, true), 0, blank);
    LateWriteKeepsTheRest(s.output, more, blank);
    if open == [] {
      MoreKeepsUp(s.delivered, all, later, n, parts, acknowledged);
    } else {
      UnshownInParts(s, open[0], notices, blank);
      OpenEventIsLast(Stream(s.output.(terminal := false), 0, blank), open, s.delivered, later, n, parts, acknowledged);
    }
  }

  lemma WritingStaysInStep(s: Source, more: seq<Byte>, terminal: bool, notices: seq<seq<Event>>, acknowledged: set<nat>,
                           blank: seq<Byte> -> bool)
    requires SourceKeepsUp(s, notices, acknowledged, blank)
    requires s.output.terminal && more != [] ==> !OpenLineShown(s, notices, blank)
    ensures SourceKeepsUp(Written(s, more, terminal), notices, acknowledged, blank)
  {
    var o, parts := s.output, Parts(notices, s.output.launchId);
    var all, all' := Stream(o, 0, blank), Stream(Written(s, more, terminal).output, 0, blank);
    var n: nat :| KeepsUp(s.delivered, all, n, parts, acknowledged);
    if !o.terminal {
      GrowthKeepsEvents(o, more, terminal, 0, blank);
      MoreKeepsUp(s.delivered, all, all', n, parts, acknowledged);
    } else if more == [] {
      assert o.content + [] == o.content;
    } else {
      LateWriteStaysInStep(s, more, n, notices, acknowledged, blank);
    }
  }

  lemma ShownIsFirst(owed: seq<Event>)
    ensures var shown := ShownAtPrompt(owed);
            |shown| == Min(Delivery.MAX_EVENTS_PER_PROMPT, |owed|)
            && shown == owed[..|shown|]
  {
  }

  lemma OwedIsTheRest(s: Source, n: nat, blank: seq<Byte> -> bool)
    requires n <= |Stream(s.output, 0, blank)| && s.delivered == EndOf(Stream(s.output, 0, blank), n)
    ensures Owed(s, blank) <= Stream(s.output, 0, blank)[n..]
  {
    OwedAfter(s.output, n, blank);
  }

  lemma PrefixOfPrefix<T>(x: seq<T>, y: seq<T>, z: seq<T>)
    requires x <= y <= z
    ensures x <= z
  {
  }

  /** The item's part of a prompt's notice is the beginning of what it owes. */
  lemma PromptJoinsOn(sources: seq<Source>, k: nat, n: nat, blank: seq<Byte> -> bool)
    requires DistinctLaunches(sources) && k < |sources|
    requires n <= |Stream(sources[k].output, 0, blank)|
    requires sources[k].delivered == EndOf(Stream(sources[k].output, 0, blank), n)
    ensures EventsOf(ShownAtPrompt(AllOwed(sources, blank)), sources[k].output.launchId)
            <= Stream(sources[k].output, 0, blank)[n..]
  {
    var s, owed := sources[k], AllOwed(sources, blank);
    OwedIsTheRest(s, n, blank);
    ShownIsFirst(owed);
    PartOfNotice(sources, k, |ShownAtPrompt(owed)|, blank);
    PrefixOfPrefix(EventsOf(ShownAtPrompt(owed), s.output.launchId), Owed(s, blank), Stream(s.output, 0, blank)[n..]);
  }

  lemma PartsOfMore(notices: seq<seq<Event>>, notice: seq<Event>, launchId: string)
    ensures Parts(notices + [notice], launchId) == Parts(notices, launchId) + [EventsOf(notice, launchId)]
  {
  }

  lemma PromptStaysInStep(r: Room, k: nat, blank: seq<Byte> -> bool)
    requires InStep(r, blank) && k < |r.sources|
    ensures ItemInStep(Play(r, Prompt, blank), k, blank)
  {
    var s, shown := r.sources[k], ShownAtPrompt(AllOwed(r.sources, blank));
    var all, launchId := Stream(s.output, 0, blank), s.output.launchId;
    var parts := Parts(r.notices, launchId);
    assert ItemInStep(r, k, blank);
    var n: nat :| KeepsUp(s.delivered, all, n, parts, r.acknowledged);
    PromptJoinsOn(r.sources, k, n, blank);
    NoticeKeepsUp(s.delivered, all, n, parts, r.acknowledged, EventsOf(shown, launchId));
    PartsOfMore(r.notices, shown, launchId);
  }

  lemma SeenBackStaysInStep(s: Source, notices: seq<seq<Event>>, acknowledged: set<nat>, j: nat,
                            blank: seq<Byte> -> bool)
    requires SourceKeepsUp(s, notices, acknowledged, blank) && j < |notices|
    ensures SourceKeepsUp(Acknowledge(s, notices[j]), notices, acknowledged + {j}, blank)
  {
    var all, parts := Stream(s.output, 0, blank), Parts(notices, s.output.launchId);
    var n: nat :| KeepsUp(s.delivered, all, n, parts, acknowledged);
    StreamRises(s.output, 0, blank);
    FirstPartGrows(s.delivered, all, n, parts, acknowledged, j);
  }

  /** A finished item is written again behind an open line that a notice has shown. */
  ghost predicate SplitsShownLine(r: Room, round: Round, blank: seq<Byte> -> bool) {
    round.Write? && round.k < |r.sources| && round.more != [] && r.sources[round.k].output.terminal
    && OpenLineShown(r.sources[round.k], r.notices, blank)
  }

  ghost predicate EverSplitsShownLine(r: Room, rounds: seq<Round>, blank: seq<Byte> -> bool) {
    rounds != []
    && (EverSplitsShownLine(r, rounds[..|rounds| - 1], blank)
        || SplitsShownLine(PlayAll(r, rounds[..|rounds| - 1], blank), rounds[|rounds| - 1], blank))
  }

  /** A round that shows nothing and acknowledges nothing. */
  lemma WriterStaysInStep(r: Room, round: Round, k: nat, blank: seq<Byte> -> bool)
    requires InStep(r, blank) && k < |r.sources| && !round.Prompt? && !round.SeenBack?
    requires !SplitsShownLine(r, round, blank)
    ensures ItemInStep(Play(r, round, blank), k, blank)
  {
    var s := r.sources[k];
    assert ItemInStep(r, k, blank);
    match round
    case Write(l, more) =>
      if l == k {
        WritingStaysInStep(s, more, false, r.notices, r.acknowledged, blank);
      }
    case Finish(l) => WritingStaysInStep(s, [], true, r.notices, r.acknowledged, blank);
    case Access(l, readable) =>
  }

  lemma ReaderStaysInStep(r: Room, j: nat, k: nat, blank: seq<Byte> -> bool)
    requires InStep(r, blank) && k < |r.sources| && j < |r.notices|
    ensures ItemInStep(Play(r, SeenBack(j), blank), k, blank)
  {
    assert ItemInStep(r, k, blank);
    SeenBackStaysInStep(r.sources[k], r.notices, r.acknowledged, j, blank);
  }

  lemma SourceStaysInStep(r: Room, round: Round, k: nat, blank: seq<Byte> -> bool)
    requires InStep(r, blank) && k < |r.sources|
    requires !SplitsShownLine(r, round, blank)
    ensures ItemInStep(Play(r, round, blank), k, blank)
  {
    match round
    case Prompt => PromptStaysInStep(r, k, blank);
    case SeenBack(j) =>
      if j < |r.notices| {
        ReaderStaysInStep(r, j, k, blank);
      } else {
        assert ItemInStep(r, k, blank);
      }
    case _ => WriterStaysInStep(r, round, k, blank);
  }

  lemma RoundStaysInStep(r: Room, round: Round, blank: seq<Byte> -> bool)
    requires InStep(r, blank)
    requires !SplitsShownLine(r, round, blank)
    ensures InStep(Play(r, round, blank), blank)
  {
    StayDistinct(r.sources, Play(r, round, blank).sources);
    forall k | 0 <= k < |Play(r, round, blank).sources|
      ensures ItemInStep(Play(r, round, blank), k, blank)
    {
      SourceStaysInStep(r, round, k, blank);
    }
  }

  lemma FreshInStep(r: Room, blank: seq<Byte> -> bool)
    requires Fresh(r)
    ensures InStep(r, blank)
  {
    forall k | 0 <= k < |r.sources| ensures ItemInStep(r, k, blank) {
      assert r.sources[k] in r.sources && Parts([], r.sources[k].output.launchId) == [];
      assert KeepsUp(0, Stream(r.sources[k].output, 0, blank), 0, [], {});
    }
  }

  lemma {:induction false} EveryRoundStaysInStep(r: Room, rounds: seq<Round>, blank: seq<Byte> -> bool)
    requires Fresh(r) && !EverSplitsShownLine(r, rounds, blank)
    ensures InStep(PlayAll(r, rounds, blank), blank)
  {
    if rounds == [] {
      FreshInStep(r, blank);
    } else {
      EveryRoundStaysInStep(r, rounds[..|rounds| - 1], blank);
      RoundStaysInStep(PlayAll(r, rounds[..|rounds| - 1], blank), rounds[|rounds| - 1], blank);
    }
  }

  lemma InsideTheFirst(all: seq<Event>, n: nat, part: seq<Event>, i: nat)
    requires JoinsOn(part, all, n, true) && Rising(all) && i < |all| && all[i] in part
    ensures i < n
  {
    var a: nat, b: nat :| a <= b <= |all| && a <= n && b <= n && part == all[a..b];
    var l :| 0 <= l < |part| && part[l] == all[i];
    assert EndOf(all, a + l + 1) == EndOf(all, i + 1);
  }

  /** Of the events a file has yielded, the first `n` are those some acknowledged notice has shown. */
  lemma AcknowledgedExactly(all: seq<Event>, n: nat, parts: seq<seq<Event>>, acknowledged: set<nat>,
                            delivered: nat, i: nat)
    requires KeepsUp(delivered, all, n, parts, acknowledged) && Rising(all) && i < |all|
    ensures SeenBackIn(all[i], parts, acknowledged) <==> i < n
  {
    if SeenBackIn(all[i], parts, acknowledged) {
      var j: nat :| j in acknowledged && j < |parts| && all[i] in parts[j];
      InsideTheFirst(all, n, parts[j], i);
    }
  }

  /** An event of one launch is in a notice exactly when it is in that launch's part. */
  lemma SeenBackInPart(e: Event, notices: seq<seq<Event>>, acknowledged: set<nat>)
    ensures SeenBackIn(e, notices, acknowledged) <==> SeenBackIn(e, Parts(notices, e.launchId), acknowledged)
  {
    var parts := Parts(notices, e.launchId);
    forall j: nat | j < |notices| ensures e in notices[j] <==> e in parts[j] {
      EventsOfHolds(notices[j], e.launchId);
    }
  }

  /** What a room's notices and offsets say of one item. */
  ghost predicate ToldInOrder(s: Source, r: Room, blank: seq<Byte> -> bool) {
    && s.delivered <= |s.output.content|
    && var all, later := Stream(s.output, 0, blank), Stream(s.output, s.delivered, blank);
    var n := |all| - |later|;
    && 0 <= n && later == all[n..]
    && (forall i :: 0 <= i < |all| ==> (SeenBackIn(all[i], r.notices, r.acknowledged) <==> i < n))
    && (forall j, e :: 0 <= j < |r.notices| && e in r.notices[j] && e.launchId == s.output.launchId ==> e in all)
  }

  lemma ShownFromTheFile(notice: seq<Event>, e: Event, all: seq<Event>, n: nat, acknowledged: bool)
    requires JoinsOn(EventsOf(notice, e.launchId), all, n, acknowledged) && e in notice
    ensures e in all
  {
    EventsOfHolds(notice, e.launchId);
  }

  lemma FirstAreSeenBack(launchId: string, all: seq<Event>, n: nat, notices: seq<seq<Event>>,
                         acknowledged: set<nat>, delivered: nat)
    requires KeepsUp(delivered, all, n, Parts(notices, launchId), acknowledged) && Rising(all)
    requires forall e <- all :: e.launchId == launchId
    ensures forall i :: 0 <= i < |all| ==> (SeenBackIn(all[i], notices, acknowledged) <==> i < n)
  {
    forall i | 0 <= i < |all| ensures SeenBackIn(all[i], notices, acknowledged) <==> i < n {
      AcknowledgedExactly(all, n, Parts(notices, launchId), acknowledged, delivered, i);
      SeenBackInPart(all[i], notices, acknowledged);
    }
  }

  lemma AllFromTheFile(launchId: string, all: seq<Event>, n: nat, notices: seq<seq<Event>>,
                       acknowledged: set<nat>, delivered: nat)
    requires KeepsUp(delivered, all, n, Parts(notices, launchId), acknowledged)
    ensures forall j, e :: 0 <= j < |notices| && e in notices[j] && e.launchId == launchId ==> e in all
  {
    forall j, e | 0 <= j < |notices| && e in notices[j] && e.launchId == launchId ensures e in all {
      assert JoinsOn(Parts(notices, launchId)[j], all, n, j in acknowledged);
      ShownFromTheFile(notices[j], e, all, n, j in acknowledged);
    }
  }

  lemma KeepingUpTells(s: Source, r: Room, blank: seq<Byte> -> bool)
    requires SourceKeepsUp(s, r.notices, r.acknowledged, blank)
    ensures ToldInOrder(s, r, blank)
  {
    var all, launchId := Stream(s.output, 0, blank), s.output.launchId;
    var n: nat :| KeepsUp(s.delivered, all, n, Parts(r.notices, launchId), r.acknowledged);
    OwedAfter(s.output, n, blank);
    StreamRises(s.output, 0, blank);
    StreamIsTheItems(s.output, 0, blank);
    FirstAreSeenBack(launchId, all, n, r.notices, r.acknowledged, s.delivered);
    AllFromTheFile(launchId, all, n, r.notices, r.acknowledged, s.delivered);
  }

  /**
   Whatever the monitors write and however late, often or out of order notices are seen back, with
   the cap of a prompt shared by all items: of every item's events exactly a first part is
   acknowledged, and the item owes exactly the rest. No event is skipped, none is lost, and no
   notice holds anything else, unless a finished item was written again behind a line shown open.
   */
  lemma EveryEventToldInOrder(r: Room, rounds: seq<Round>, s: Source, blank: seq<Byte> -> bool)
    requires Fresh(r) && s in PlayAll(r, rounds, blank).sources && !EverSplitsShownLine(r, rounds, blank)
    ensures ToldInOrder(s, PlayAll(r, rounds, blank), blank)
    ensures s.output.terminal ==> LastEnd(s.output.content, 0, true) == |s.output.content|
  {
    var q := PlayAll(r, rounds, blank);
    EveryRoundStaysInStep(r, rounds, blank);
    var k :| 0 <= k < |q.sources| && q.sources[k] == s;
    assert ItemInStep(q, k, blank);
    KeepingUpTells(s, q, blank);
    PiecesLeaveOnlyAnOpenLine(s.output.content, 0, s.output.terminal);
  }

  // ----- A line shown open and written on -----

  /** The event ends where a line was open, and the file goes on there. */
  predicate EndsInALine(e: Event, o: Output) {
    e.endOffset < |o.content| && OpenLine(o.content[..e.endOffset]).Some?
  }

  /** A notice has shown an event that its file does not yield any more, nor ever will. */
  ghost predicate LostLine(r: Room) {
    exists k, j, e :: 0 <= k < |r.sources| && 0 <= j < |r.notices| && e in r.notices[j]
      && e.launchId == r.sources[k].output.launchId && EndsInALine(e, r.sources[k].output)
  }

  lemma SplittingLosesALine(r: Room, round: Round, blank: seq<Byte> -> bool)
    requires SplitsShownLine(r, round, blank)
    ensures LostLine(Play(r, round, blank))
  {
    var s, q := r.sources[round.k], Play(r, round, blank);
    var j, e :| 0 <= j < |r.notices| && e in r.notices[j] && e in OpenEvents(s.output, blank);
    assert q.sources[round.k].output.content[..e.endOffset] == s.output.content;
    assert EndsInALine(e, q.sources[round.k].output);
  }

  lemma LostLineStays(r: Room, round: Round, blank: seq<Byte> -> bool)
    requires LostLine(r)
    ensures LostLine(Play(r, round, blank))
  {
    var q := Play(r, round, blank);
    var k, j, e :| 0 <= k < |r.sources| && 0 <= j < |r.notices| && e in r.notices[j]
                   && e.launchId == r.sources[k].output.launchId && EndsInALine(e, r.sources[k].output);
    var before, now := r.sources[k].output.content, q.sources[k].output.content;
    assert before <= now && now[..e.endOffset] == before[..e.endOffset];
    assert q.notices[j] == r.notices[j];
    assert EndsInALine(e, q.sources[k].output);
  }

  lemma {:induction false} EverSplitLosesALine(r: Room, rounds: seq<Round>, blank: seq<Byte> -> bool)
    requires EverSplitsShownLine(r, rounds, blank)
    ensures LostLine(PlayAll(r, rounds, blank))
  {
    var front, last := rounds[..|rounds| - 1], rounds[|rounds| - 1];
    if EverSplitsShownLine(r, front, blank) {
      EverSplitLosesALine(r, front, blank);
      LostLineStays(PlayAll(r, front, blank), last, blank);
    } else {
      SplittingLosesALine(PlayAll(r, front, blank), last, blank);
    }
  }

  /** All is told in order exactly when no finished item was written again behind a line shown open. */
  lemma ToldInOrderIff(r: Room, rounds: seq<Round>, blank: seq<Byte> -> bool)
    requires Fresh(r)
    ensures (forall s <- PlayAll(r, rounds, blank).sources :: ToldInOrder(s, PlayAll(r, rounds, blank), blank))
            <==> !EverSplitsShownLine(r, rounds, blank)
  {
    var q := PlayAll(r, rounds, blank);
    if EverSplitsShownLine(r, rounds, blank) {
      EverSplitLosesALine(r, rounds, blank);
      var k, j, e :| 0 <= k < |q.sources| && 0 <= j < |q.notices| && e in q.notices[j]
                     && e.launchId == q.sources[k].output.launchId && EndsInALine(e, q.sources[k].output);
      OpenLineIsGone(q.sources[k].output.content[..e.endOffset], q.sources[k].output, e, blank);
      assert !ToldInOrder(q.sources[k], q, blank);
    } else {
      forall s <- q.sources ensures ToldInOrder(s, q, blank) {
        EveryEventToldInOrder(r, rounds, s, blank);
      }
    }
  }

  // ----- How fast the rounds deliver -----

  lemma {:induction false} MarkingAFront(all: seq<Event>, from: nat, n: nat)
    requires Rising(all) && n <= |all| && (n > 0 ==> from < EndOf(all, 1))
    ensures MarkAll(from, all[..n]) == if n == 0 then from else EndOf(all, n)
  {
    if n > 0 {
      MarkingAFront(all, from, n - 1);
      assert all[..n][..n - 1] == all[..n - 1];
      assert EndOf(all, n - 1) < EndOf(all, n) && EndOf(all, n) == all[n - 1].endOffset;
    }
  }

  /** Acknowledging the first events an item owes leaves the others owed. */
  lemma AcknowledgingOne(s: Source, first: seq<Event>, rest: seq<Event>, notice: seq<Event>, blank: seq<Byte> -> bool)
    requires Owed(s, blank) == first + rest && EventsOf(notice, s.output.launchId) == first
    ensures Owed(Acknowledge(s, notice), blank) == rest
  {
    var n := |first|;
    if n > 0 {
      StreamRises(s.output, s.delivered, blank);
      assert first == Owed(s, blank)[..n];
      MarkingAFront(Owed(s, blank), s.delivered, n);
      ResumeAfterEvent(s.output, s.delivered, n - 1, blank);
    }
  }

  lemma {:induction false} AcknowledgingFor(sources: seq<Source>, x: seq<Event>, y: seq<Event>, launchId: string)
    requires forall s <- sources :: s.output.launchId != launchId
    requires forall e <- y :: e.launchId == launchId
    ensures AcknowledgeIn(sources, x + y) == AcknowledgeIn(sources, x)
  {
    forall k | 0 <= k < |sources| ensures Acknowledge(sources[k], x + y) == Acknowledge(sources[k], x) {
      EventsOfConcat(x, y, sources[k].output.launchId);
      EventsOfOne(y, launchId, sources[k].output.launchId);
      assert EventsOf(x + y, sources[k].output.launchId) == EventsOf(x, sources[k].output.launchId);
    }
  }

  lemma LastOfAllOwed(sources: seq<Source>, notice: seq<Event>, blank: seq<Byte> -> bool)
    requires sources != []
    ensures var front, last := sources[..|sources| - 1], sources[|sources| - 1];
            AllOwed(AcknowledgeIn(sources, notice), blank)
            == AllOwed(AcknowledgeIn(front, notice), blank) + Owed(Acknowledge(last, notice), blank)
  {
    var all := AcknowledgeIn(sources, notice);
    assert all[..|all| - 1] == AcknowledgeIn(sources[..|sources| - 1], notice);
  }

  /** Two ways to split one sequence: what lies between the two cuts. */
  lemma TwoCuts<T>(x: seq<T>, y: seq<T>, first: seq<T>, rest: seq<T>) returns (between: seq<T>)
    requires x + y == first + rest
    ensures |first| <= |x| ==> x == first + between && rest == between + y
    ensures |first| > |x| ==> first == x + between && y == between + rest
  {
    var all := x + y;
    if |first| <= |x| {
      between := all[|first|..|x|];
    } else {
      between := all[|x|..|first|];
      assert all[..|x|] == x && all[..|first|] == first;
      assert all[|x|..] == y;
    }
  }

  lemma AcknowledgingLast(front: seq<Source>, last: Source, x: seq<Event>, first: seq<Event>, rest: seq<Event>,
                          blank: seq<Byte> -> bool)
    requires Owed(last, blank) == first + rest && EventsOf(x, last.output.launchId) == []
    requires forall s <- front :: s.output.launchId != last.output.launchId
    ensures AcknowledgeIn(front, x + first) == AcknowledgeIn(front, x)
    ensures Owed(Acknowledge(last, x + first), blank) == rest
  {
    var launchId := last.output.launchId;
    if first != [] {
      StreamIsTheItems(last.output, last.delivered, blank);
      assert forall e <- first :: e in first + rest;
    }
    AcknowledgingFor(front, x, first, launchId);
    EventsOfConcat(x, first, launchId);
    EventsOfOne(first, launchId, launchId);
    AcknowledgingOne(last, first, rest, x + first, blank);
  }

  lemma LastTakesOff(sources: seq<Source>, x: seq<Event>, first: seq<Event>, rest: seq<Event>, blank: seq<Byte> -> bool)
    requires DistinctLaunches(sources) && sources != []
    requires EventsOf(x, sources[|sources| - 1].output.launchId) == []
    requires Owed(sources[|sources| - 1], blank) == first + rest
    requires AllOwed(AcknowledgeIn(sources[..|sources| - 1], x), blank) == []
    ensures AllOwed(AcknowledgeIn(sources, x + first), blank) == rest
  {
    LastOfAllOwed(sources, x + first, blank);
    AcknowledgingLast(sources[..|sources| - 1], sources[|sources| - 1], x, first, rest, blank);
  }

  lemma {:induction false} AcknowledgingAll(sources: seq<Source>, blank: seq<Byte> -> bool)
    requires DistinctLaunches(sources)
    ensures AllOwed(AcknowledgeIn(sources, AllOwed(sources, blank)), blank) == []
  {
    if sources != [] {
      var front, last := sources[..|sources| - 1], sources[|sources| - 1];
      OthersOwe(front, last.output.launchId, blank);
      AcknowledgingAll(front, blank);
      assert Owed(last, blank) + [] == Owed(last, blank);
      LastTakesOff(sources, AllOwed(front, blank), Owed(last, blank), [], blank);
    }
  }

  lemma FrontTakesOff(sources: seq<Source>, first: seq<Event>, between: seq<Event>, x: seq<Event>, y: seq<Event>,
                      blank: seq<Byte> -> bool)
    requires sources != [] && x == first + between && EventsOf(x, sources[|sources| - 1].output.launchId) == []
    requires y == Owed(sources[|sources| - 1], blank)
    requires AllOwed(AcknowledgeIn(sources[..|sources| - 1], first), blank) == between
    ensures AllOwed(AcknowledgeIn(sources, first), blank) == between + y
  {
    LastOfAllOwed(sources, first, blank);
    EventsOfConcat(first, between, sources[|sources| - 1].output.launchId);
  }

  /** Acknowledging the first of all the events owed leaves exactly the rest owed. */
  lemma {:induction false} AcknowledgingTakesOff(sources: seq<Source>, first: seq<Event>, rest: seq<Event>,
                                                 blank: seq<Byte> -> bool)
    requires DistinctLaunches(sources) && AllOwed(sources, blank) == first + rest
    ensures AllOwed(AcknowledgeIn(sources, first), blank) == rest
  {
    if sources != [] {
      var front, last := sources[..|sources| - 1], sources[|sources| - 1];
      var x, y := AllOwed(front, blank), Owed(last, blank);
      OthersOwe(front, last.output.launchId, blank);
      var between := TwoCuts(x, y, first, rest);
      if |first| <= |x| {
        AcknowledgingTakesOff(front, first, between, blank);
        FrontTakesOff(sources, first, between, x, y, blank);
      } else {
        AcknowledgingAll(front, blank);
        LastTakesOff(sources, x, between, rest, blank);
      }
    }
  }

  /** The items after a prompt that was seen back. */
  function Told(sources: seq<Source>, blank: seq<Byte> -> bool): seq<Source> {
    AcknowledgeIn(sources, ShownAtPrompt(AllOwed(sources, blank)))
  }

  lemma PromptTakesTwentyOff(sources: seq<Source>, blank: seq<Byte> -> bool)
    requires DistinctLaunches(sources)
    ensures DistinctLaunches(Told(sources, blank))
    ensures AllOwed(sources, blank) == ShownAtPrompt(AllOwed(sources, blank)) + AllOwed(Told(sources, blank), blank)
  {
    var owed := AllOwed(sources, blank);
    StayDistinct(sources, Told(sources, blank));
    ShownIsFirst(owed);
    var shown := ShownAtPrompt(owed);
    assert owed == shown + owed[|shown|..];
    AcknowledgingTakesOff(sources, shown, owed[|shown|..], blank);
  }

  /** The items after `k` prompts, each seen back before the next. */
  function Prompted(sources: seq<Source>, k: nat, blank: seq<Byte> -> bool): seq<Source>
    decreases k
  {
    if k == 0 then sources else Prompted(Told(sources, blank), k - 1, blank)
  }

  /** What those prompts show, one after the other. */
  function PromptsShow(sources: seq<Source>, k: nat, blank: seq<Byte> -> bool): seq<Event>
    decreases k
  {
    if k == 0 then [] else ShownAtPrompt(AllOwed(sources, blank)) + PromptsShow(Told(sources, blank), k - 1, blank)
  }

  lemma {:induction false} PromptsShowInOrder(sources: seq<Source>, k: nat, blank: seq<Byte> -> bool)
    requires DistinctLaunches(sources)
    ensures AllOwed(sources, blank) == PromptsShow(sources, k, blank) + AllOwed(Prompted(sources, k, blank), blank)
    decreases k
  {
    if k > 0 {
      var shown, after := ShownAtPrompt(AllOwed(sources, blank)), Told(sources, blank);
      PromptTakesTwentyOff(sources, blank);
      PromptsShowInOrder(after, k - 1, blank);
      ConcatAssociative(shown, PromptsShow(after, k - 1, blank), AllOwed(Prompted(after, k - 1, blank), blank));
    }
  }

  lemma OwedAfterPrompt(sources: seq<Source>, blank: seq<Byte> -> bool)
    requires DistinctLaunches(sources)
    ensures DistinctLaunches(Told(sources, blank))
    ensures |ShownAtPrompt(AllOwed(sources, blank))| == Min(Delivery.MAX_EVENTS_PER_PROMPT, |AllOwed(sources, blank)|)
    ensures |AllOwed(Told(sources, blank), blank)|
            == |AllOwed(sources, blank)| - |ShownAtPrompt(AllOwed(sources, blank))|
  {
    PromptTakesTwentyOff(sources, blank);
    ShownIsFirst(AllOwed(sources, blank));
  }

  /** Twenty at a time, `k` times, of what is owed. */
  function Twenties(k: nat, owed: nat): nat
    decreases k
  {
    if k == 0 then 0 else
      var shown := Min(Delivery.MAX_EVENTS_PER_PROMPT, owed);
      shown + Twenties(k - 1, owed - shown)
  }

  lemma {:induction false} PromptsShowTwenty(sources: seq<Source>, k: nat, blank: seq<Byte> -> bool)
    requires DistinctLaunches(sources)
    ensures |PromptsShow(sources, k, blank)| == Twenties(k, |AllOwed(sources, blank)|)
    decreases k
  {
    if k > 0 {
      OwedAfterPrompt(sources, blank);
      PromptsShowTwenty(Told(sources, blank), k - 1, blank);
    }
  }

  lemma {:induction false} TwentiesAddUp(k: nat, owed: nat)
    ensures Twenties(k, owed) == Min(k * Delivery.MAX_EVENTS_PER_PROMPT, owed)
    decreases k
  {
    if k > 0 {
      var shown := Min(Delivery.MAX_EVENTS_PER_PROMPT, owed);
      TwentiesAddUp(k - 1, owed - shown);
      assert k * Delivery.MAX_EVENTS_PER_PROMPT
             == (k - 1) * Delivery.MAX_EVENTS_PER_PROMPT + Delivery.MAX_EVENTS_PER_PROMPT;
    }
  }

  /**
   Prompts that are seen back in turn show what all items owe in order, each event once, twenty
   at a time, until nothing is owed.
   */
  lemma EnoughPromptsTellAll(sources: seq<Source>, k: nat, blank: seq<Byte> -> bool)
    requires DistinctLaunches(sources)
    ensures AllOwed(sources, blank) == PromptsShow(sources, k, blank) + AllOwed(Prompted(sources, k, blank), blank)
    ensures |PromptsShow(sources, k, blank)| == Min(k * Delivery.MAX_EVENTS_PER_PROMPT, |AllOwed(sources, blank)|)
  {
    PromptsShowInOrder(sources, k, blank);
    PromptsShowTwenty(sources, k, blank);
    TwentiesAddUp(k, |AllOwed(sources, blank)|);
  }
}
