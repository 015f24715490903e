/**
 What the notice tells. A reader takes it line by line: a result or an event by its fields, a
 detail by its indent, and the notes of what had to wait. The text is shown to say the first ten
 results with their details, how many more wait, the first twenty events and whether more wait.
 */
module NoticeTexts {
  import opened Basics
  import opened PlainText
  import opened ContinuityStore
  import opened Delivery

  /** The families and outcomes as a reader knows them by name. */
  const FAMILY_NAMES: map<string, Family> :=
    map["agent" := Agent, "workflow" := Workflow, "background_shell" := BackgroundShell, "monitor" := Monitor,
        "scheduled_wakeup" := ScheduledWakeup]

  const OUTCOME_NAMES: map<string, Outcome> :=
    map["completed" := Completed, "failed" := Failed, "timed_out" := TimedOut, "cancelled" := Cancelled,
        "killed" := Killed, "stopped" := Stopped, "unknown" := OutcomeUnknown]

  /** Where the text first holds a middle dot, or its length. */
  function DotIn(s: string): (i: nat)
    ensures i <= |s|
  {
    if s == "" || s[0] == '\U{b7}' then 0 else 1 + DotIn(s[1..])
  }

  /** The fields of a line, between its dots with a space on either side. */
  function Fields(s: string): seq<string>
    decreases |s|
  {
    var i := DotIn(s);
    if i == |s| || i == 0 || i + 2 > |s| then [s] else [s[..i - 1]] + Fields(s[i + 2..])
  }

  predicate HasNoDot(s: string) {
    '\U{b7}' !in s
  }

  lemma {:induction false} DotAfter(a: string, rest: string)
    requires HasNoDot(a) && (rest == "" || rest[0] == '\U{b7}')
    ensures DotIn(a + rest) == |a|
    decreases a
  {
    if a == "" {
      assert a + rest == rest;
    } else {
      assert a[0] in a && (a + rest)[1..] == a[1..] + rest;
      assert HasNoDot(a[1..]) by { assert forall c :: c in a[1..] ==> c in a; }
      DotAfter(a[1..], rest);
    }
  }

  lemma LastField(a: string)
    requires HasNoDot(a)
    ensures Fields(a) == [a]
  {
    DotAfter(a, "");
    assert a + "" == a;
  }

  lemma FirstField(a: string, rest: string)
    requires HasNoDot(a)
    ensures Fields(a + DOT + rest) == [a] + Fields(rest)
  {
    var before, after := a + " ", "\U{b7} " + rest;
    assert a + DOT + rest == before + after;
    assert HasNoDot(before);
    DotAfter(before, after);
    assert (before + after)[..|a|] == a && (before + after)[|a| + 3..] == rest;
  }

  /** What a line of the notice tells its reader. */
  datatype Told =
    | AboutResult(launchId: string, family: Family, labelText: string, outcome: Outcome)
    | Detail(text: string)
    | ResultsWait(n: nat)
    | AboutEvent(key: string, labelText: string, text: string)
    | EventsWait

  function ResultTold(line: string): seq<Told> {
    var fields := Fields(line);
    if |fields| == 4 && "result " <= fields[0] && fields[1] in FAMILY_NAMES && fields[3] in OUTCOME_NAMES
    then [AboutResult(fields[0][7..], FAMILY_NAMES[fields[1]], fields[2], OUTCOME_NAMES[fields[3]])]
    else []
  }

  function EventTold(line: string): seq<Told> {
    var fields := Fields(line);
    if |fields| == 4 && "event " <= fields[0] && fields[1] == "monitor"
    then [AboutEvent(fields[0][6..], fields[2], fields[3])]
    else []
  }

  /** The digits a line begins with. */
  function Digits(s: string): (d: string)
    ensures d <= s && AllDigits(d)
  {
    if s != "" && IsDigit(s[0]) then
      var later := Digits(s[1..]);
      [s[0]] + later
    else ""
  }

  function WaitingTold(line: string): seq<Told> {
    var digits := Digits(line);
    if digits != "" && line[|digits|..] == MORE_RESULTS then [ResultsWait(NumberOf(digits))] else []
  }

  function LineTells(line: string): seq<Told> {
    if line == "" then []
    else if line[0] == 'r' then ResultTold(line)
    else if line[0] == 'e' then EventTold(line)
    else if line[0] == ' ' then (if "  " <= line then [Detail(line[2..])] else [])
    else if line == MORE_EVENTS then [EventsWait]
    else WaitingTold(line)
  }

  function Tells(lines: seq<string>): seq<Told> {
    if lines == [] then [] else LineTells(lines[0]) + Tells(lines[1..])
  }

  lemma FamilyIsNamed(f: Family)
    ensures HasNoDot(FamilyName(f)) && FamilyName(f) in FAMILY_NAMES && FAMILY_NAMES[FamilyName(f)] == f
  {
    match f
    case Agent =>
    case Workflow =>
    case BackgroundShell =>
    case Monitor =>
    case ScheduledWakeup =>
  }

  lemma OutcomeIsNamed(o: Outcome)
    ensures HasNoDot(OutcomeName(o)) && OutcomeName(o) in OUTCOME_NAMES && OUTCOME_NAMES[OutcomeName(o)] == o
  {
    match o
    case Completed =>
    case Failed =>
    case TimedOut =>
    case Cancelled =>
    case Killed =>
    case Stopped =>
    case OutcomeUnknown =>
  }

  lemma FourFields(a: string, b: string, c: string, d: string)
    requires HasNoDot(a) && HasNoDot(b) && HasNoDot(c) && HasNoDot(d)
    ensures Fields(a + DOT + (b + DOT + c + DOT + d)) == [a, b, c, d]
  {
    FirstField(a, b + DOT + c + DOT + d);
    assert b + DOT + c + DOT + d == b + DOT + (c + DOT + d);
    FirstField(b, c + DOT + d);
    FirstField(c, d);
    LastField(d);
  }

  /** A result's line tells its name, its family, its label as one line and its outcome. */
  lemma ResultLineTells(r: Finished)
    requires HasNoDot(r.launchId)
    ensures LineTells(ResultLine(r))
            == [AboutResult(r.launchId, r.family, OneLine(r.labelText, MAX_LABEL_CHARS), r.outcome)]
  {
    FamilyIsNamed(r.family);
    OutcomeIsNamed(r.outcome);
    FourFields(RESULT + r.launchId, FamilyName(r.family), OneLine(r.labelText, MAX_LABEL_CHARS),
               OutcomeName(r.outcome));
    assert (RESULT + r.launchId)[7..] == r.launchId;
  }

  function EventShown(e: EventLine): Told {
    AboutEvent(e.launchId + "@" + Decimal(e.endOffset), OneLine(e.labelText, MAX_LABEL_CHARS),
               OneLine(e.text, MAX_EVENT_CHARS))
  }

  /** An event's line tells its key, its label and its text, each as one line. */
  lemma EventTextTells(e: EventLine)
    requires HasNoDot(e.launchId)
    ensures LineTells(EventText(e)) == [EventShown(e)]
  {
    var key := e.launchId + "@" + Decimal(e.endOffset);
    assert HasNoDot(key);
    FourFields(EVENT + key, "monitor", OneLine(e.labelText, MAX_LABEL_CHARS), OneLine(e.text, MAX_EVENT_CHARS));
    assert (EVENT + key)[6..] == key;
  }

  // ----- What the notice tells -----

  function ResultShown(r: Finished, details: map<string, string>): seq<Told> {
    var about := [AboutResult(r.launchId, r.family, OneLine(r.labelText, MAX_LABEL_CHARS), r.outcome)];
    if r.launchId in details && details[r.launchId] != ""
    then about + [Detail(OneLine(details[r.launchId], MAX_DETAIL_CHARS))] else about
  }

  function ResultsShown(shown: seq<Finished>, details: map<string, string>): seq<Told> {
    if shown == [] then [] else ResultShown(shown[0], details) + ResultsShown(shown[1..], details)
  }

  function EventsShown(shown: seq<EventLine>): seq<Told> {
    seq(|shown|, i requires 0 <= i < |shown| => EventShown(shown[i]))
  }

  /** What is to be told of the results: ten of them, and how many more wait. */
  function ResultsToTell(results: seq<Finished>, details: map<string, string>): seq<Told> {
    ResultsShown(Take(results, 10), details) + if |results| <= 10 then [] else [ResultsWait(|results| - 10)]
  }

  /** What is to be told of the events: twenty of them, and whether more wait. */
  function EventsToTell(events: seq<EventLine>): seq<Told> {
    EventsShown(Take(events, 20)) + if |events| <= 20 then [] else [EventsWait]
  }

  lemma {:induction false} TellsConcat(a: seq<string>, b: seq<string>)
    ensures Tells(a + b) == Tells(a) + Tells(b)
    decreases a
  {
    if a == [] {
      assert a + b == b;
    } else {
      assert (a + b)[1..] == a[1..] + b;
      TellsConcat(a[1..], b);
      ConcatAssociative(LineTells(a[0]), Tells(a[1..]), Tells(b));
    }
  }

  lemma OneLineTells(line: string)
    ensures Tells([line]) == LineTells(line)
  {
    assert [line][1..] == [];
  }

  lemma FirstLineTells(line: string, lines: seq<string>)
    ensures Tells([line] + lines) == LineTells(line) + Tells(lines)
  {
    assert ([line] + lines)[1..] == lines;
  }

  ghost predicate IsName(id: string) {
    IsToken(id) && HasNoDot(id)
  }

  lemma BlockTells(r: Finished, details: map<string, string>)
    requires IsName(r.launchId)
    ensures Tells([ResultLine(r)] + DetailLines(r, details)) == ResultShown(r, details)
  {
    var detail := DetailLines(r, details);
    ResultLineTells(r);
    FirstLineTells(ResultLine(r), detail);
    if detail != [] {
      OneLineTells(detail[0]);
      assert detail[0][2..] == OneLine(details[r.launchId], MAX_DETAIL_CHARS);
    }
  }

  lemma {:induction false} ResultLinesTell(shown: seq<Finished>, details: map<string, string>)
    requires forall r <- shown :: IsName(r.launchId)
    ensures Tells(ResultLines(shown, details)) == ResultsShown(shown, details)
    decreases shown
  {
    if shown != [] {
      FirstIsIn(shown);
      BlockTells(shown[0], details);
      ResultLinesTell(shown[1..], details);
      TellsConcat([ResultLine(shown[0])] + DetailLines(shown[0], details), ResultLines(shown[1..], details));
    }
  }

  lemma EventsShownFrom(shown: seq<EventLine>)
    requires shown != []
    ensures EventsShown(shown) == [EventShown(shown[0])] + EventsShown(shown[1..])
  {
  }

  lemma {:induction false} EventTextsTell(shown: seq<EventLine>)
    requires forall e <- shown :: IsName(e.launchId)
    ensures Tells(EventTexts(shown)) == EventsShown(shown)
    decreases shown
  {
    if shown != [] {
      FirstIsIn(shown);
      EventTextTells(shown[0]);
      EventTextsTell(shown[1..]);
      FirstLineTells(EventText(shown[0]), EventTexts(shown[1..]));
      EventsShownFrom(shown);
    }
  }

  lemma {:induction false} DigitsAfter(d: string, rest: string)
    requires AllDigits(d) && rest != "" && !IsDigit(rest[0])
    ensures Digits(d + rest) == d
    decreases d
  {
    if d == "" {
      assert d + rest == rest;
    } else {
      assert d[0] in d && (d + rest)[1..] == d[1..] + rest;
      DigitsAfter(d[1..], rest);
    }
  }

  lemma WaitingTells(n: nat)
    ensures LineTells(Decimal(n) + MORE_RESULTS) == [ResultsWait(n)]
  {
    var digits := Decimal(n);
    var line := digits + MORE_RESULTS;
    FirstIsIn(digits);
    assert MORE_RESULTS[0] == ' ' && MORE_EVENTS[0] == 'M' && line[0] == digits[0];
    DigitsAfter(digits, MORE_RESULTS);
    assert line[|digits|..] == MORE_RESULTS;
    DecimalRoundTrip(n);
  }

  lemma NoDigits(line: string)
    requires line != "" && line[0] in "cDmM"
    ensures Digits(line) == "" && WaitingTold(line) == []
  {
  }

  lemma FixedLinesTell()
    ensures LineTells(HEADER) == [] && LineTells(FOOTER) == [] && LineTells(EVENTS_HEADER) == []
            && LineTells(MORE_EVENTS) == [EventsWait]
  {
    assert HEADER[0] == 'c' && FOOTER[0] == 'D' && EVENTS_HEADER[0] == 'm' && MORE_EVENTS[0] == 'M';
    NoDigits(HEADER);
    NoDigits(FOOTER);
    NoDigits(EVENTS_HEADER);
  }

  lemma EventLinesTell(events: seq<EventLine>)
    requires forall e <- Take(events, MAX_EVENTS_PER_PROMPT) :: IsName(e.launchId)
    ensures Tells(EventLines(events)) == EventsToTell(events)
  {
    if events != [] {
      var shown := Take(events, MAX_EVENTS_PER_PROMPT);
      var more := if |events| > MAX_EVENTS_PER_PROMPT then [MORE_EVENTS] else [];
      FixedLinesTell();
      EventTextsTell(shown);
      OneLineTells(MORE_EVENTS);
      FirstLineTells(EVENTS_HEADER, EventTexts(shown));
      TellsConcat([EVENTS_HEADER] + EventTexts(shown), more);
    }
  }

  lemma SilentFirst(line: string, lines: seq<string>)
    requires LineTells(line) == []
    ensures Tells([line] + lines) == Tells(lines)
  {
    FirstLineTells(line, lines);
    assert [] + Tells(lines) == Tells(lines);
  }

  lemma SilentLast(lines: seq<string>, line: string)
    requires LineTells(line) == []
    ensures Tells(lines + [line]) == Tells(lines)
  {
    TellsConcat(lines, [line]);
    OneLineTells(line);
    assert Tells(lines) + [] == Tells(lines);
  }

  /** Lines between a header and a footer that tell nothing. */
  lemma AroundTells(header: string, lines: seq<string>, more: seq<string>, eventLines: seq<string>, footer: string)
    requires LineTells(header) == [] && LineTells(footer) == []
    ensures Tells([header] + lines + more + eventLines + [footer]) == Tells(lines) + Tells(more) + Tells(eventLines)
  {
    SilentFirst(header, lines);
    TellsConcat([header] + lines, more);
    TellsConcat([header] + lines + more, eventLines);
    SilentLast([header] + lines + more + eventLines, footer);
  }

  lemma BetweenTells(lines: seq<string>, rest: int, eventLines: seq<string>)
    ensures Tells(Between(lines, rest, eventLines))
            == Tells(lines) + (if rest <= 0 then [] else [ResultsWait(rest)]) + Tells(eventLines)
  {
    FixedLinesTell();
    if rest > 0 {
      WaitingTells(rest);
      OneLineTells(Decimal(rest) + MORE_RESULTS);
      AroundTells(HEADER, lines, [Decimal(rest) + MORE_RESULTS], eventLines, FOOTER);
    } else {
      AroundTells(HEADER, lines, [], eventLines, FOOTER);
    }
  }

  lemma ContextIsLines(results: seq<Finished>, details: map<string, string>, events: seq<EventLine>)
    requires forall r <- Take(results, MAX_RESULTS_PER_PROMPT) :: IsName(r.launchId)
    requires forall e <- Take(events, MAX_EVENTS_PER_PROMPT) :: IsName(e.launchId)
    requires results != [] || events != []
    ensures Split(Context(results, details, events)) == ContextLines(results, details, events)
  {
    var shown := Take(results, MAX_RESULTS_PER_PROMPT);
    ResultLinesAreLines(shown, details);
    EventLinesKeys(events);
    BetweenKeys(ResultLines(shown, details), |results| - MAX_RESULTS_PER_PROMPT, EventLines(events));
    SplitJoin(ContextLines(results, details, events));
  }

  lemma ContextLinesTell(results: seq<Finished>, details: map<string, string>, events: seq<EventLine>)
    requires forall r <- Take(results, MAX_RESULTS_PER_PROMPT) :: IsName(r.launchId)
    requires forall e <- Take(events, MAX_EVENTS_PER_PROMPT) :: IsName(e.launchId)
    ensures Tells(ContextLines(results, details, events)) == ResultsToTell(results, details) + EventsToTell(events)
  {
    var lines, rest := ResultLines(Take(results, 10), details), |results| - 10;
    ResultLinesTell(Take(results, 10), details);
    EventLinesTell(events);
    BetweenTells(lines, rest, EventLines(events));
  }

  /** Read line by line, the notice tells all it has to and nothing else. */
  lemma NoticeTells(results: seq<Finished>, details: map<string, string>, events: seq<EventLine>)
    requires forall r <- Take(results, MAX_RESULTS_PER_PROMPT) :: IsName(r.launchId)
    requires forall e <- Take(events, MAX_EVENTS_PER_PROMPT) :: IsName(e.launchId)
    ensures Tells(Split(Context(results, details, events))) == ResultsToTell(results, details) + EventsToTell(events)
  {
    if results == [] && events == [] {
      OneLineTells("");
      assert Split("") == [""];
    } else {
      ContextIsLines(results, details, events);
      ContextLinesTell(results, details, events);
    }
  }
}
