/**
 What holds of every run of prompts and acknowledgements, also when a finished item is written on
 behind a line that was shown open: no byte of an output is skipped, and no event comes again once
 its notice was seen back.
 */
module MonitorGaps {
  import opened Basics
  import opened OutputReads
  import opened MonitorEvents
  import opened MonitorRounds

  /** The piece is blank, or a notice that was seen back has shown it. */
  ghost predicate PieceTold(o: Output, from: nat, until: nat, notices: seq<seq<Event>>, acknowledged: set<nat>,
                            blank: seq<Byte> -> bool) {
    from < until <= |o.content| && forall e <- Shown(o, from, until, blank) :: SeenBackIn(e, notices, acknowledged)
  }

  /** Told pieces join end to end from the start of the file up to here. */
  ghost predicate Joined(o: Output, until: nat, notices: seq<seq<Event>>, acknowledged: set<nat>,
                         blank: seq<Byte> -> bool)
    decreases until
  {
    until == 0
    || exists from: nat :: from < until && PieceTold(o, from, until, notices, acknowledged, blank)
                           && Joined(o, from, notices, acknowledged, blank)
  }

  /** The events are those of pieces that join end to end from `start` on. */
  ghost predicate Walks(o: Output, start: nat, part: seq<Event>, blank: seq<Byte> -> bool)
    requires start <= |o.content|
    decreases |o.content| - start
  {
    part == []
    || exists end: nat :: start < end <= |o.content| && Shown(o, start, end, blank) <= part
                          && Walks(o, end, part[|Shown(o, start, end, blank)|..], blank)
  }

  ghost predicate PartJoins(o: Output, part: seq<Event>, notices: seq<seq<Event>>, acknowledged: set<nat>,
                            blank: seq<Byte> -> bool) {
    exists start: nat ::
      start <= |o.content| && Joined(o, start, notices, acknowledged, blank) && Walks(o, start, part, blank)
  }

  /** The acknowledged offset ends told pieces, notices go on from such ends, and nothing seen back lies behind it. */
  ghost predicate Gapless(s: Source, notices: seq<seq<Event>>, acknowledged: set<nat>, blank: seq<Byte> -> bool) {
    && s.delivered <= |s.output.content| && Joined(s.output, s.delivered, notices, acknowledged, blank)
    && (forall j :: 0 <= j < |notices| ==>
          PartJoins(s.output, EventsOf(notices[j], s.output.launchId), notices, acknowledged, blank))
    && (forall e :: SeenBackIn(e, notices, acknowledged) && e.launchId == s.output.launchId ==>
          e.endOffset <= s.delivered)
  }

  ghost predicate RoomGapless(r: Room, blank: seq<Byte> -> bool) {
    && DistinctLaunches(r.sources) && (forall j <- r.acknowledged :: j < |r.notices|)
    && (forall k :: 0 <= k < |r.sources| ==> Gapless(r.sources[k], r.notices, r.acknowledged, blank))
  }

  // ----- What stays while files grow and notices come -----

  ghost predicate Extends(o: Output, later: Output) {
    o.content <= later.content && later.launchId == o.launchId && later.labelText == o.labelText
  }

  lemma ShownStays(o: Output, later: Output, from: nat, until: nat, blank: seq<Byte> -> bool)
    requires Extends(o, later) && from <= until <= |o.content|
    ensures Shown(later, from, until, blank) == Shown(o, from, until, blank)
  {
    assert later.content[from..until] == o.content[from..until];
  }

  lemma {:induction false} JoinedStays(o: Output, later: Output, until: nat, notices: seq<seq<Event>>,
                                       more: seq<seq<Event>>, acknowledged: set<nat>, now: set<nat>,
                                       blank: seq<Byte> -> bool)
    requires Extends(o, later) && notices <= more && acknowledged <= now
             && Joined(o, until, notices, acknowledged, blank)
    ensures Joined(later, until, more, now, blank)
    decreases until
  {
    if until > 0 {
      var from: nat :| from < until && PieceTold(o, from, until, notices, acknowledged, blank)
                       && Joined(o, from, notices, acknowledged, blank);
      JoinedStays(o, later, from, notices, more, acknowledged, now, blank);
      ShownStays(o, later, from, until, blank);
      forall e <- Shown(later, from, until, blank) ensures SeenBackIn(e, more, now) {
        var j: nat :| j in acknowledged && j < |notices| && e in notices[j];
        assert more[j] == notices[j];
      }
      assert PieceTold(later, from, until, more, now, blank);
    }
  }

  lemma {:induction false} WalksStay(o: Output, later: Output, start: nat, part: seq<Event>, blank: seq<Byte> -> bool)
    requires start <= |o.content| && Extends(o, later) && Walks(o, start, part, blank)
    ensures Walks(later, start, part, blank)
    decreases |o.content| - start
  {
    if part != [] {
      var end: nat :| start < end <= |o.content| && Shown(o, start, end, blank) <= part
                      && Walks(o, end, part[|Shown(o, start, end, blank)|..], blank);
      ShownStays(o, later, start, end, blank);
      WalksStay(o, later, end, part[|Shown(o, start, end, blank)|..], blank);
    }
  }

  lemma PartStays(o: Output, later: Output, part: seq<Event>, notices: seq<seq<Event>>, more: seq<seq<Event>>,
                  acknowledged: set<nat>, now: set<nat>, blank: seq<Byte> -> bool)
    requires Extends(o, later) && notices <= more && acknowledged <= now
    requires PartJoins(o, part, notices, acknowledged, blank)
    ensures PartJoins(later, part, more, now, blank)
  {
    var start: nat :| start <= |o.content| && Joined(o, start, notices, acknowledged, blank)
        && Walks(o, start, part, blank);
    JoinedStays(o, later, start, notices, more, acknowledged, now, blank);
    WalksStay(o, later, start, part, blank);
  }

  // ----- What a prompt shows, and what seeing it back does -----

  /** The first events a file yields from an offset on walk from there. */
  lemma {:induction false} StreamWalks(o: Output, start: nat, part: seq<Event>, blank: seq<Byte> -> bool)
    requires start <= |o.content| && part <= Stream(o, start, blank)
    ensures Walks(o, start, part, blank)
    decreases |o.content| - start
  {
    if part != [] {
      var end := Cut(o.content, start, o.terminal).value;
      var shown, later := Shown(o, start, end, blank), Stream(o, end, blank);
      assert part <= shown + later && |shown| <= 1;
      assert shown <= part && part[|shown|..] <= later;
      StreamWalks(o, end, part[|shown|..], blank);
    }
  }

  /** Once a part is seen back, told pieces join up to the end of each of its events. */
  lemma {:induction false} WalkJoins(o: Output, start: nat, part: seq<Event>, notices: seq<seq<Event>>,
                                     acknowledged: set<nat>, blank: seq<Byte> -> bool)
    requires start <= |o.content| && Joined(o, start, notices, acknowledged, blank) && Walks(o, start, part, blank)
    requires forall e <- part :: SeenBackIn(e, notices, acknowledged)
    ensures forall e <- part :: e.endOffset <= |o.content| && Joined(o, e.endOffset, notices, acknowledged, blank)
    decreases |o.content| - start
  {
    if part != [] {
      var end: nat :| start < end <= |o.content| && Shown(o, start, end, blank) <= part
                      && Walks(o, end, part[|Shown(o, start, end, blank)|..], blank);
      var shown := Shown(o, start, end, blank);
      var rest := part[|shown|..];
      assert part == shown + rest;
      assert PieceTold(o, start, end, notices, acknowledged, blank);
      WalkJoins(o, end, rest, notices, acknowledged, blank);
    }
  }

  /** Marking ends at the furthest of the offset and the events' ends. */
  lemma {:induction false} MarkAllFurthest(delivered: nat, events: seq<Event>)
    ensures var end := MarkAll(delivered, events);
      && delivered <= end && (forall e <- events :: e.endOffset <= end)
      && (end == delivered || exists e :: e in events && e.endOffset == end)
  {
    if events != [] {
      var front, last := events[..|events| - 1], events[|events| - 1];
      MarkAllFurthest(delivered, front);
      assert events == front + [last];
      assert last in events;
    }
  }

  lemma WritingStaysGapless(s: Source, more: seq<Byte>, terminal: bool, notices: seq<seq<Event>>,
                            acknowledged: set<nat>, blank: seq<Byte> -> bool)
    requires Gapless(s, notices, acknowledged, blank)
    ensures Gapless(Written(s, more, terminal), notices, acknowledged, blank)
  {
    var o, later := s.output, Written(s, more, terminal).output;
    assert Extends(o, later);
    JoinedStays(o, later, s.delivered, notices, notices, acknowledged, acknowledged, blank);
    forall j | 0 <= j < |notices|
      ensures PartJoins(later, EventsOf(notices[j], o.launchId), notices, acknowledged, blank)
    {
      PartStays(o, later, EventsOf(notices[j], o.launchId), notices, notices, acknowledged, acknowledged, blank);
    }
  }

  lemma PromptStaysGapless(s: Source, notices: seq<seq<Event>>, acknowledged: set<nat>, shown: seq<Event>,
                           blank: seq<Byte> -> bool)
    requires Gapless(s, notices, acknowledged, blank) && EventsOf(shown, s.output.launchId) <= Owed(s, blank)
    requires forall j <- acknowledged :: j < |notices|
    ensures Gapless(s, notices + [shown], acknowledged, blank)
  {
    var o, more, part := s.output, notices + [shown], EventsOf(shown, s.output.launchId);
    JoinedStays(o, o, s.delivered, notices, more, acknowledged, acknowledged, blank);
    StreamWalks(o, s.delivered, part, blank);
    forall j | 0 <= j < |more| ensures PartJoins(o, EventsOf(more[j], o.launchId), more, acknowledged, blank) {
      if j < |notices| {
        PartStays(o, o, EventsOf(notices[j], o.launchId), notices, more, acknowledged, acknowledged, blank);
      }
    }
    forall e | SeenBackIn(e, more, acknowledged) ensures SeenBackIn(e, notices, acknowledged) {
      var j: nat :| j in acknowledged && j < |more| && e in more[j];
      assert more[j] == notices[j];
    }
  }

  lemma SeenBackStaysGapless(s: Source, notices: seq<seq<Event>>, acknowledged: set<nat>, j: nat,
                             blank: seq<Byte> -> bool)
    requires Gapless(s, notices, acknowledged, blank) && j < |notices|
    ensures Gapless(Acknowledge(s, notices[j]), notices, acknowledged + {j}, blank)
  {
    var o, now, part := s.output, acknowledged + {j}, EventsOf(notices[j], s.output.launchId);
    EventsOfHolds(notices[j], o.launchId);
    MarkAllFurthest(s.delivered, part);
    JoinedStays(o, o, s.delivered, notices, notices, acknowledged, now, blank);
    forall i | 0 <= i < |notices| ensures PartJoins(o, EventsOf(notices[i], o.launchId), notices, now, blank) {
      PartStays(o, o, EventsOf(notices[i], o.launchId), notices, notices, acknowledged, now, blank);
    }
    forall e <- part ensures SeenBackIn(e, notices, now) {
      assert j in now && e in notices[j];
    }
    var start: nat :| start <= |o.content| && Joined(o, start, notices, now, blank) && Walks(o, start, part, blank);
    WalkJoins(o, start, part, notices, now, blank);
    forall e | SeenBackIn(e, notices, now) && e.launchId == o.launchId
      ensures e.endOffset <= Acknowledge(s, notices[j]).delivered
    {
      var i: nat :| i in now && i < |notices| && e in notices[i];
      if i != j {
        assert SeenBackIn(e, notices, acknowledged);
      }
    }
  }

  lemma RoundStaysGapless(r: Room, round: Round, k: nat, blank: seq<Byte> -> bool)
    requires RoomGapless(r, blank) && k < |r.sources|
    ensures var q := Play(r, round, blank); Gapless(q.sources[k], q.notices, q.acknowledged, blank)
  {
    var s := r.sources[k];
    match round
    case Write(l, more) => WritingStaysGapless(s, more, false, r.notices, r.acknowledged, blank);
    case Finish(l) => WritingStaysGapless(s, [], true, r.notices, r.acknowledged, blank);
    case Access(l, readable) =>
    case Prompt =>
      var owed := AllOwed(r.sources, blank);
      ShownIsFirst(owed);
      PartOfNotice(r.sources, k, |ShownAtPrompt(owed)|, blank);
      PromptStaysGapless(s, r.notices, r.acknowledged, ShownAtPrompt(owed), blank);
    case SeenBack(j) =>
      if j < |r.notices| {
        SeenBackStaysGapless(s, r.notices, r.acknowledged, j, blank);
      }
  }

  lemma {:induction false} EveryRunIsGapless(r: Room, rounds: seq<Round>, blank: seq<Byte> -> bool)
    requires Fresh(r)
    ensures RoomGapless(PlayAll(r, rounds, blank), blank)
  {
    if rounds == [] {
      forall k | 0 <= k < |r.sources| ensures Gapless(r.sources[k], r.notices, r.acknowledged, blank) {
        assert r.sources[k] in r.sources;
      }
    } else {
      var before, last := PlayAll(r, rounds[..|rounds| - 1], blank), rounds[|rounds| - 1];
      EveryRunIsGapless(r, rounds[..|rounds| - 1], blank);
      StayDistinct(before.sources, Play(before, last, blank).sources);
      forall k | 0 <= k < |before.sources|
        ensures var q := Play(before, last, blank); Gapless(q.sources[k], q.notices, q.acknowledged, blank)
      {
        RoundStaysGapless(before, last, k, blank);
      }
    }
  }

  // ----- Main results -----

  /**
   Over any run, whatever is written when: pieces that were blank, or in a notice seen back, join
   end to end from the start of each file up to the acknowledged offset. No byte is skipped.
   */
  lemma NoByteIsSkipped(r: Room, rounds: seq<Round>, s: Source, blank: seq<Byte> -> bool)
    requires Fresh(r) && s in PlayAll(r, rounds, blank).sources
    ensures var q := PlayAll(r, rounds, blank);
      s.delivered <= |s.output.content| && Joined(s.output, s.delivered, q.notices, q.acknowledged, blank)
  {
    var q := PlayAll(r, rounds, blank);
    EveryRunIsGapless(r, rounds, blank);
    var k :| 0 <= k < |q.sources| && q.sources[k] == s;
  }

  /**
   When a prompt has nothing to show, nothing of a readable monitor's output is owed, and unless a
   line shown open was written on, every event of it was in a notice seen back.
   */
  lemma NothingShownNothingOwed(r: Room, rounds: seq<Round>, s: Source, blank: seq<Byte> -> bool)
    requires Fresh(r) && s in PlayAll(r, rounds, blank).sources && s.isRelaunchedMonitor && s.readable
    requires ShownAtPrompt(AllOwed(PlayAll(r, rounds, blank).sources, blank)) == []
    ensures s.delivered <= |s.output.content| && Stream(s.output, s.delivered, blank) == []
    ensures var q := PlayAll(r, rounds, blank);
      !EverSplitsShownLine(r, rounds, blank) ==>
        forall e <- Stream(s.output, 0, blank) :: SeenBackIn(e, q.notices, q.acknowledged)
  {
    var q := PlayAll(r, rounds, blank);
    EveryRunIsGapless(r, rounds, blank);
    if !EverSplitsShownLine(r, rounds, blank) {
      EveryEventToldInOrder(r, rounds, s, blank);
    }
    var k :| 0 <= k < |q.sources| && q.sources[k] == s;
    ShownIsFirst(AllOwed(q.sources, blank));
    assert AllOwed(q.sources, blank) == [];
    PartOfAllOwed(q.sources, k, blank);
  }

  lemma {:induction false} OwedBySome(sources: seq<Source>, e: Event, blank: seq<Byte> -> bool)
    requires e in AllOwed(sources, blank)
    ensures exists k :: 0 <= k < |sources| && e in Owed(sources[k], blank)
  {
    var front, last := sources[..|sources| - 1], sources[|sources| - 1];
    if e in Owed(last, blank) {
      assert e in Owed(sources[|sources| - 1], blank);
    } else {
      OwedBySome(front, e, blank);
      var k :| 0 <= k < |front| && e in Owed(front[k], blank);
      assert sources[k] == front[k];
    }
  }

  lemma OwedIsUnseen(s: Source, r: Room, e: Event, blank: seq<Byte> -> bool)
    requires Gapless(s, r.notices, r.acknowledged, blank) && e in Owed(s, blank)
    ensures !SeenBackIn(e, r.notices, r.acknowledged)
  {
    var i :| 0 <= i < |Owed(s, blank)| && Owed(s, blank)[i] == e;
    ResumeAfterEvent(s.output, s.delivered, i, blank);
    StreamIsTheItems(s.output, s.delivered, blank);
  }

  /**
   A prompt shows no event that an acknowledged notice has shown: only events of notices not yet
   seen back come again. When every earlier notice was seen back, every event shown is new.
   */
  lemma OnlyUnseenEventsComeAgain(r: Room, rounds: seq<Round>, e: Event, blank: seq<Byte> -> bool)
    requires Fresh(r)
    ensures var q := PlayAll(r, rounds, blank);
      e in ShownAtPrompt(AllOwed(q.sources, blank)) ==>
        && !SeenBackIn(e, q.notices, q.acknowledged)
        && ((forall j: nat :: j < |q.notices| ==> j in q.acknowledged) ==>
              forall j :: 0 <= j < |q.notices| ==> e !in q.notices[j])
  {
    var q := PlayAll(r, rounds, blank);
    if e in ShownAtPrompt(AllOwed(q.sources, blank)) {
      OwedBySome(q.sources, e, blank);
      var k :| 0 <= k < |q.sources| && e in Owed(q.sources[k], blank);
      EveryRunIsGapless(r, rounds, blank);
      OwedIsUnseen(q.sources[k], q, e, blank);
    }
  }

  // ----- A line shown open and written on -----

  const LETTER: Byte := 97

  /** A finished item whose one letter is no whole line. */
  function OneLetter(launchId: string, labelText: string): Source {
    Source(Output(launchId, labelText, [LETTER], true), true, true, 0)
  }

  /** What a finished item yields whose letters are no whole line. */
  lemma LettersYield(o: Output, blank: seq<Byte> -> bool)
    requires o.terminal && (o.content == [LETTER] || o.content == [LETTER, LETTER]) && !blank(o.content)
    ensures Stream(o, 0, blank) == [Event(o.launchId, o.labelText, o.content, |o.content|)]
    ensures OpenEvents(o, blank) == [Event(o.launchId, o.labelText, o.content, |o.content|)]
  {
    FirstNewline(o.content, 0);
    assert forall k :: 0 <= k < |o.content| ==> o.content[k] == LETTER;
    assert Cut(o.content, 0, true) == Some(|o.content|) && Cut(o.content, 0, false) == None;
    assert o.content[0..|o.content|] == o.content && Strip(o.content) == o.content;
    CutAtEnd(o.content, true);
  }

  /** A prompt for one item that owes one event. */
  lemma OnePrompt(s: Source, e: Event, notices: seq<seq<Event>>, acknowledged: set<nat>, blank: seq<Byte> -> bool)
    requires Owed(s, blank) == [e]
    ensures Play(Room([s], notices, acknowledged), Prompt, blank) == Room([s], notices + [[e]], acknowledged)
  {
    assert [s][..0] == [];
    assert AllOwed([s], blank) == [e];
    ShownIsFirst([e]);
    assert ShownAtPrompt([e]) == [e];
  }

  /**
   A finished item is written on behind the line a prompt has shown: the line comes again with what
   was added, so its first byte is in two notices, and not all is told in order.
   */
  lemma LineComesAgain(launchId: string, labelText: string, blank: seq<Byte> -> bool)
    requires !blank([LETTER]) && !blank([LETTER, LETTER])
    ensures var r := Room([OneLetter(launchId, labelText)], [], {});
      && Fresh(r)
      && var q := PlayAll(r, [Prompt] + [Write(0, [LETTER])] + [Prompt], blank);
      && q.notices == [[Event(launchId, labelText, [LETTER], 1)], [Event(launchId, labelText, [LETTER, LETTER], 2)]]
      && EverSplitsShownLine(r, [Prompt] + [Write(0, [LETTER])] + [Prompt], blank)
  {
    var s := OneLetter(launchId, labelText);
    var r := Room([s], [], {});
    assert r.sources[..0] == [];
    var shown := Event(launchId, labelText, [LETTER], 1);
    LettersYield(s.output, blank);
    OnePrompt(s, shown, [], {}, blank);
    var q1 := PlayAll(r, [Prompt], blank);
    assert [Prompt][..0] == [] && PlayAll(r, [], blank) == r;
    assert q1 == Room([s], [[shown]], {});
    var two := [Prompt] + [Write(0, [LETTER])];
    assert two[..1] == [Prompt];
    assert shown in q1.notices[0] && OpenLineShown(s, q1.notices, blank);
    var s2 := Written(s, [LETTER], false);
    var q2 := PlayAll(r, two, blank);
    assert q2 == Room([s2], [[shown]], {});
    LettersYield(s2.output, blank);
    OnePrompt(s2, Event(launchId, labelText, [LETTER, LETTER], 2), [[shown]], {}, blank);
    assert (two + [Prompt])[..2] == two;
  }
}
