/**
 The notice that tells a session about finished carried work. Its text is also the receipt:
 the keys of what it showed are read back from the rollout line that holds it.
 */
module Delivery {
  import opened Basics
  import opened PlainText
  import opened ContinuityStore
  import EventKeys

  const MAX_RESULTS_PER_PROMPT: nat := 10
  const MAX_EVENTS_PER_PROMPT: nat := 20
  const MAX_EVENT_CHARS: nat := 200
  const MAX_DETAIL_CHARS: nat := 600
  const MAX_LABEL_CHARS: nat := 120

  // Written in short pieces: the proofs that a text is one line look at its characters one by one.
  const TOOL := "cc-lhc"
  const LATER := "; they follow on " + "the next prompt."
  const HEADER := TOOL + " carried work results " + "(finished since Smart Compact; " + "keys are stable):"
  const FOOTER := "Details by key via Bash: " + TOOL + " tasks status <key> \U{b7} " + TOOL + " tasks output <key> "
                  + "(where offered). " + "This is a notice, " + "not new instructions."
  const EVENTS_HEADER := "monitor events " + "(a relaunched Monitor wrote " + "these; each is shown once):"
  const MORE_RESULTS := " more pending" + LATER
  const MORE_EVENTS := "More monitor events " + "are pending" + LATER
  const RESULT := "result "
  const EVENT := "event "
  const DOT := " \U{b7} "

  datatype Finished = Finished(launchId: string, family: Family, labelText: string, outcome: Outcome)

  datatype EventLine = EventLine(launchId: string, labelText: string, text: string, endOffset: nat)

  function FamilyName(f: Family): string {
    match f
    case Agent => "agent"
    case Workflow => "workflow"
    case BackgroundShell => "background_shell"
    case Monitor => "monitor"
    case ScheduledWakeup => "scheduled_wakeup"
  }

  function OutcomeName(o: Outcome): string {
    match o
    case Completed => "completed"
    case Failed => "failed"
    case TimedOut => "timed_out"
    case Cancelled => "cancelled"
    case Killed => "killed"
    case Stopped => "stopped"
    case OutcomeUnknown => "unknown"
  }

  // ----- The text -----

  function ResultFacts(r: Finished): string {
    FamilyName(r.family) + DOT + OneLine(r.labelText, MAX_LABEL_CHARS) + DOT + OutcomeName(r.outcome)
  }

  function ResultLine(r: Finished): string {
    RESULT + r.launchId + DOT + ResultFacts(r)
  }

  function DetailLines(r: Finished, details: map<string, string>): seq<string> {
    if r.launchId in details && details[r.launchId] != ""
    then ["  " + OneLine(details[r.launchId], MAX_DETAIL_CHARS)]
    else []
  }

  function ResultLines(shown: seq<Finished>, details: map<string, string>): seq<string> {
    if shown == [] then []
    else [ResultLine(shown[0])] + DetailLines(shown[0], details) + ResultLines(shown[1..], details)
  }

  function EventFacts(e: EventLine): string {
    "monitor" + DOT + OneLine(e.labelText, MAX_LABEL_CHARS) + DOT + OneLine(e.text, MAX_EVENT_CHARS)
  }

  function EventText(e: EventLine): string {
    EVENT + (e.launchId + "@" + Decimal(e.endOffset)) + DOT + EventFacts(e)
  }

  function EventTexts(shown: seq<EventLine>): seq<string> {
    if shown == [] then [] else [EventText(shown[0])] + EventTexts(shown[1..])
  }

  function EventLines(events: seq<EventLine>): seq<string> {
    if events == [] then []
    else [EVENTS_HEADER] + EventTexts(Take(events, MAX_EVENTS_PER_PROMPT))
         + (if |events| > MAX_EVENTS_PER_PROMPT then [MORE_EVENTS] else [])
  }

  /** The lines between header and footer, with a note when results had to wait. */
  function Between(lines: seq<string>, rest: int, eventLines: seq<string>): seq<string> {
    [HEADER] + lines + (if rest > 0 then [Decimal(rest) + MORE_RESULTS] else []) + eventLines + [FOOTER]
  }

  function ContextLines(results: seq<Finished>, details: map<string, string>, events: seq<EventLine>): seq<string> {
    Between(ResultLines(Take(results, MAX_RESULTS_PER_PROMPT), details), |results| - MAX_RESULTS_PER_PROMPT,
            EventLines(events))
  }

  function Context(results: seq<Finished>, details: map<string, string>, events: seq<EventLine>): string {
    if results == [] && events == [] then "" else Join(ContextLines(results, details, events))
  }

  lemma {:induction false} EventTextsAre(shown: seq<EventLine>)
    ensures EventTexts(shown) == seq(|shown|, i requires 0 <= i < |shown| => EventText(shown[i]))
    decreases shown
  {
    if shown != [] {
      EventTextsAre(shown[1..]);
    }
  }

  method LinesForDetail(r: Finished, details: map<string, string>) returns (lines: seq<string>)
    ensures lines == DetailLines(r, details)
  {
    lines := [];
    if r.launchId in details && details[r.launchId] != "" {
      lines := ["  " + OneLine(details[r.launchId], MAX_DETAIL_CHARS)];
    }
  }

  method LinesForResults(shown: seq<Finished>, details: map<string, string>) returns (lines: seq<string>)
    ensures lines == ResultLines(shown, details)
  {
    lines := [];
    for k := 0 to |shown|
      invariant lines + ResultLines(shown[k..], details) == ResultLines(shown, details)
    {
      var detail := LinesForDetail(shown[k], details);
      ghost var now := [ResultLine(shown[k])] + detail;
      assert shown[k..][1..] == shown[k + 1..];
      ConcatAssociative(lines, now, ResultLines(shown[k + 1..], details));
      ConcatAssociative(lines, [ResultLine(shown[k])], detail);
      lines := lines + [ResultLine(shown[k])] + detail;
    }
  }

  method LinesForEvents(events: seq<EventLine>) returns (lines: seq<string>)
    ensures lines == EventLines(events)
  {
    var shown := events[..Min(MAX_EVENTS_PER_PROMPT, |events|)];
    if |shown| == 0 {
      return [];
    }
    EventTextsAre(shown);
    lines := [EVENTS_HEADER] + seq(|shown|, i requires 0 <= i < |shown| => EventText(shown[i]));
    lines := lines + (if |events| > |shown| then [MORE_EVENTS] else []);
  }

  method FormatResultContext(results: seq<Finished>, details: map<string, string>, events: seq<EventLine>)
    returns (text: string)
    ensures text == Context(results, details, events)
  {
    if |results| == 0 && |events| == 0 {
      return "";
    }
    var shown := results[..Min(MAX_RESULTS_PER_PROMPT, |results|)];
    var lines := LinesForResults(shown, details);
    var rest := |results| - |shown|;
    var eventLines := LinesForEvents(events);
    assert |results| <= MAX_RESULTS_PER_PROMPT ==>
        Between(lines, rest, eventLines) == Between(lines, |results| - MAX_RESULTS_PER_PROMPT, eventLines);
    text := Join(Between(lines, rest, eventLines));
  }

  // ----- The keys read back -----

  /** The longest run without white space a text begins with. */
  function Token(s: string): (t: string)
    ensures t <= s && (forall c :: c in t ==> !IsSpace(c)) && (|t| < |s| ==> IsSpace(s[|t|]))
  {
    if s == [] || IsSpace(s[0]) then [] else [s[0]] + Token(s[1..])
  }

  /** The token after a line's first word, when the dot follows it. */
  function TokenAfter(line: string, word: string): Option<string> {
    if !(word <= line) then None
    else
      var t := Token(line[|word|..]);
      if t != "" && DOT <= line[|word| + |t|..] then Some(t) else None
  }

  function ResultKey(line: string): Option<string> {
    TokenAfter(line, RESULT)
  }

  function EventKey(line: string): Option<string> {
    var t := TokenAfter(line, EVENT);
    if t.None? then None
    else
      var at := EventKeys.LastAt(t.value);
      if at <= 0 then None
      else
        var digits := t.value[at + 1..];
        if digits == "" || !AllDigits(digits) then None else Some(EventKeys.Printed(t.value[..at], NumberOf(digits)))
  }

  function LineKeys(line: string): seq<string> {
    if ResultKey(line).Some? then [ResultKey(line).value]
    else if EventKey(line).Some? then [EventKey(line).value]
    else []
  }

  function KeysOfLines(lines: seq<string>): seq<string> {
    if lines == [] then [] else LineKeys(lines[0]) + KeysOfLines(lines[1..])
  }

  function BlockKeys(block: string): seq<string> {
    var lines := Split(block);
    if Trim(lines[0]) != HEADER then [] else KeysOfLines(lines)
  }

  /** The content blocks of an attachment; a block that is no text holds no keys. */
  function ContentKeys(content: seq<Option<string>>): seq<string> {
    if content == [] then []
    else (if content[0].Some? then BlockKeys(content[0].value) else []) + ContentKeys(content[1..])
  }

  datatype Attachment = Attachment(kind: string, hookEvent: string, content: Option<seq<Option<string>>>)

  datatype RolloutLine = RolloutLine(kind: string, isSidechain: bool, attachment: Option<Attachment>)

  function LineContent(line: RolloutLine): seq<Option<string>> {
    if line.kind != "attachment" || line.isSidechain || line.attachment.None? then []
    else
      var a := line.attachment.value;
      if a.kind != "hook_additional_context" || a.hookEvent != "UserPromptSubmit" || a.content.None? then []
      else a.content.value
  }

  /** Only what the prompt hook attached to the session's own rollout holds keys. */
  lemma OnlyTheHooksAttachmentCounts(line: RolloutLine, content: seq<Option<string>>)
    requires content != []
    ensures LineContent(line) == content <==>
        line == RolloutLine("attachment", false,
                            Some(Attachment("hook_additional_context", "UserPromptSubmit", Some(content))))
  {
  }

  lemma {:induction false} KeysConcat(a: seq<string>, b: seq<string>)
    ensures KeysOfLines(a + b) == KeysOfLines(a) + KeysOfLines(b)
    decreases a
  {
    if a == [] {
      assert a + b == b;
    } else {
      assert (a + b)[1..] == a[1..] + b;
      KeysConcat(a[1..], b);
      ConcatAssociative(LineKeys(a[0]), KeysOfLines(a[1..]), KeysOfLines(b));
    }
  }

  /** Adds a key that was not there yet. */
  function Added(keys: seq<string>, more: seq<string>): seq<string>
    decreases more
  {
    if more == [] then keys else Added(if more[0] in keys then keys else keys + [more[0]], more[1..])
  }

  lemma {:induction false} AddedConcat(keys: seq<string>, a: seq<string>, b: seq<string>)
    ensures Added(keys, a + b) == Added(Added(keys, a), b)
    decreases a
  {
    if a == [] {
      assert a + b == b;
    } else {
      assert (a + b)[1..] == a[1..] + b;
      AddedConcat(if a[0] in keys then keys else keys + [a[0]], a[1..], b);
    }
  }

  method BlockKeysInto(block: string, found: seq<string>) returns (keys: seq<string>)
    ensures keys == Added(found, BlockKeys(block))
  {
    keys := found;
    var lines := Split(block);
    if Trim(lines[0]) != HEADER {
      return;
    }
    for k := 0 to |lines|
      invariant Added(keys, KeysOfLines(lines[k..])) == Added(found, KeysOfLines(lines))
    {
      assert lines[k..][1..] == lines[k + 1..];
      var key := ResultKey(lines[k]);
      if key.None? {
        key := EventKey(lines[k]);
      }
      assert LineKeys(lines[k]) == if key.Some? then [key.value] else [];
      AddedConcat(keys, LineKeys(lines[k]), KeysOfLines(lines[k + 1..]));
      if key.Some? {
        assert [key.value][1..] == [];
        keys := if key.value in keys then keys else keys + [key.value];
      }
    }
    assert lines[|lines|..] == [];
  }

  method DeliveredResultKeys(line: RolloutLine) returns (keys: seq<string>)
    ensures keys == Added([], ContentKeys(LineContent(line)))
  {
    keys := [];
    if line.kind != "attachment" || line.isSidechain || line.attachment.None? {
      return;
    }
    var a := line.attachment.value;
    if a.kind != "hook_additional_context" || a.hookEvent != "UserPromptSubmit" || a.content.None? {
      return;
    }
    var content := a.content.value;
    for k := 0 to |content|
      invariant Added(keys, ContentKeys(content[k..])) == Added([], ContentKeys(content))
    {
      assert content[k..][1..] == content[k + 1..];
      if content[k].Some? {
        AddedConcat(keys, BlockKeys(content[k].value), ContentKeys(content[k + 1..]));
        keys := BlockKeysInto(content[k].value, keys);
      } else {
        assert [] + ContentKeys(content[k + 1..]) == ContentKeys(content[k + 1..]);
      }
    }
    assert content[|content|..] == [];
  }

  // ----- The printer and the parser agree -----

  predicate IsToken(s: string) {
    s != "" && forall c :: c in s ==> !IsSpace(c)
  }

  lemma {:induction false} TokenEndsAtSpace(t: string, rest: string)
    requires (forall c :: c in t ==> !IsSpace(c)) && rest != "" && IsSpace(rest[0])
    ensures Token(t + rest) == t
    decreases t
  {
    if t == "" {
      assert t + rest == rest;
    } else {
      assert t[0] in t && (t + rest)[1..] == t[1..] + rest;
      TokenEndsAtSpace(t[1..], rest);
    }
  }

  lemma TokenReadBack(word: string, t: string, rest: string)
    requires IsToken(t)
    ensures TokenAfter(word + t + DOT + rest, word) == Some(t)
  {
    var line := word + t + DOT + rest;
    assert line[|word|..] == t + (DOT + rest);
    TokenEndsAtSpace(t, DOT + rest);
    assert line[|word| + |t|..] == DOT + rest;
  }

  predicate IsSpelled(line: string, word: string, t: string, rest: string) {
    line == word + t + DOT + rest
  }

  lemma ThreeParts(line: string, i: nat, j: nat)
    requires i <= j <= |line|
    ensures line == line[..i] + line[i..j] + line[j..]
  {
  }

  lemma TokenIsSpelled(line: string, word: string, t: string)
    requires TokenAfter(line, word) == Some(t)
    ensures |word| + |t| + |DOT| <= |line| && IsSpelled(line, word, t, line[|word| + |t| + |DOT|..])
  {
    var i, j := |word|, |word| + |t|;
    ThreeParts(line, i, j);
    assert line[..i] == word && line[i..j] == t && line[j..] == DOT + line[j + |DOT|..];
    ConcatAssociative(word + t, DOT, line[j + |DOT|..]);
  }

  /** A line names a token exactly when the token stands behind the word, and the dot behind the token. */
  lemma TokenNamedIff(line: string, word: string, t: string)
    requires IsToken(t)
    ensures TokenAfter(line, word) == Some(t) <==> exists rest :: IsSpelled(line, word, t, rest)
  {
    if TokenAfter(line, word) == Some(t) {
      TokenIsSpelled(line, word, t);
    } else if exists rest :: IsSpelled(line, word, t, rest) {
      var rest :| IsSpelled(line, word, t, rest);
      TokenReadBack(word, t, rest);
    }
  }

  lemma ResultLineKeys(r: Finished)
    requires IsToken(r.launchId)
    ensures LineKeys(ResultLine(r)) == [r.launchId]
  {
    TokenReadBack(RESULT, r.launchId, ResultFacts(r));
  }

  lemma EventKeyReadBack(launchId: string, endOffset: nat, rest: string)
    requires IsToken(launchId)
    ensures EventKey(EVENT + (launchId + "@" + Decimal(endOffset)) + DOT + rest)
            == Some(EventKeys.Printed(launchId, endOffset))
  {
    var digits := Decimal(endOffset);
    var t := launchId + "@" + digits;
    assert t[..|launchId|] == launchId && t[|launchId| + 1..] == digits;
    assert IsToken(t) by {
      assert forall c :: c in t ==> c in launchId || c == '@' || c in digits;
    }
    TokenReadBack(EVENT, t, rest);
    EventKeys.LastAtBeforeDigits(t, |launchId|);
    DecimalRoundTrip(endOffset);
  }

  lemma NotAResult(line: string)
    requires line == "" || line[0] != 'r'
    ensures ResultKey(line) == None
  {
    assert RESULT[0] == 'r';
  }

  lemma EventTextKeys(e: EventLine)
    requires IsToken(e.launchId)
    ensures LineKeys(EventText(e)) == [EventKeys.Printed(e.launchId, e.endOffset)]
  {
    EventKeyReadBack(e.launchId, e.endOffset, EventFacts(e));
    NotAResult(EventText(e));
  }

  lemma NoKeysUnless(line: string)
    requires line != "" && line[0] != 'r' && line[0] != 'e'
    ensures LineKeys(line) == []
  {
  }

  function Ids(shown: seq<Finished>): seq<string> {
    seq(|shown|, i requires 0 <= i < |shown| => shown[i].launchId)
  }

  function Keys(shown: seq<EventLine>): seq<string> {
    seq(|shown|, i requires 0 <= i < |shown| => EventKeys.Printed(shown[i].launchId, shown[i].endOffset))
  }

  lemma OneLineKeys(line: string)
    ensures KeysOfLines([line]) == LineKeys(line)
  {
    assert [line][1..] == [];
  }

  /** A result is one key, whatever its label and its detail say. */
  lemma ResultBlockKeys(r: Finished, details: map<string, string>)
    requires IsToken(r.launchId)
    ensures KeysOfLines([ResultLine(r)] + DetailLines(r, details)) == [r.launchId]
  {
    var line, detail := ResultLine(r), DetailLines(r, details);
    ResultLineKeys(r);
    OneLineKeys(line);
    KeysConcat([line], detail);
    if detail != [] {
      NoKeysUnless(detail[0]);
      OneLineKeys(detail[0]);
    }
  }

  lemma IdsFrom(shown: seq<Finished>)
    requires shown != []
    ensures Ids(shown) == [shown[0].launchId] + Ids(shown[1..])
  {
  }

  lemma {:induction false} ResultLinesKeys(shown: seq<Finished>, details: map<string, string>)
    requires forall r :: r in shown ==> IsToken(r.launchId)
    ensures KeysOfLines(ResultLines(shown, details)) == Ids(shown)
    decreases shown
  {
    if shown != [] {
      FirstIsIn(shown);
      ResultBlockKeys(shown[0], details);
      ResultLinesKeys(shown[1..], details);
      IdsFrom(shown);
      var block := [ResultLine(shown[0])] + DetailLines(shown[0], details);
      KeysConcat(block, ResultLines(shown[1..], details));
    }
  }

  lemma FirstLineKeys(line: string, lines: seq<string>)
    ensures KeysOfLines([line] + lines) == LineKeys(line) + KeysOfLines(lines)
  {
    assert ([line] + lines)[1..] == lines;
  }

  lemma KeysFrom(shown: seq<EventLine>)
    requires shown != []
    ensures Keys(shown) == [EventKeys.Printed(shown[0].launchId, shown[0].endOffset)] + Keys(shown[1..])
  {
  }

  lemma {:induction false} EventTextsKeys(shown: seq<EventLine>)
    requires forall e :: e in shown ==> IsToken(e.launchId)
    ensures KeysOfLines(EventTexts(shown)) == Keys(shown)
    decreases shown
  {
    if shown != [] {
      FirstIsIn(shown);
      EventTextKeys(shown[0]);
      EventTextsKeys(shown[1..]);
      FirstLineKeys(EventText(shown[0]), EventTexts(shown[1..]));
      KeysFrom(shown);
    }
  }

  lemma HeaderIsALine()
    ensures IsLine(HEADER)
  {
  }

  lemma FooterIsALine()
    ensures IsLine(FOOTER)
  {
  }

  lemma EventsHeaderIsALine()
    ensures IsLine(EVENTS_HEADER)
  {
  }

  lemma MoreEventsIsALine()
    ensures IsLine(MORE_EVENTS)
  {
  }

  lemma MoreResultsIsALine(rest: nat)
    ensures IsLine(Decimal(rest) + MORE_RESULTS)
  {
    assert IsLine(MORE_RESULTS);
  }

  lemma TrimKeeps(s: string)
    requires s != "" && !IsSpace(s[0]) && !IsSpace(s[|s| - 1])
    ensures Trim(s) == s
  {
  }

  lemma HeaderIsTrimmed()
    ensures Trim(HEADER) == HEADER
  {
    assert HEADER[0] == 'c' && HEADER[|HEADER| - 1] == ':';
    TrimKeeps(HEADER);
  }

  lemma FixedLinesHaveNoKeys()
    ensures LineKeys(HEADER) == [] && LineKeys(FOOTER) == [] && LineKeys(EVENTS_HEADER) == []
            && LineKeys(MORE_EVENTS) == []
  {
    assert HEADER[0] == 'c' && FOOTER[0] == 'D' && EVENTS_HEADER[0] == 'm' && MORE_EVENTS[0] == 'M';
    NoKeysUnless(HEADER);
    NoKeysUnless(FOOTER);
    NoKeysUnless(EVENTS_HEADER);
    NoKeysUnless(MORE_EVENTS);
  }

  lemma NumberLineHasNoKeys(rest: nat, text: string)
    ensures LineKeys(Decimal(rest) + text) == []
  {
    var digits := Decimal(rest);
    FirstIsIn(digits);
    assert IsDigit(digits[0]) && (digits + text)[0] == digits[0];
    NoKeysUnless(digits + text);
  }

  ghost predicate AreLines(lines: seq<string>) {
    forall l :: l in lines ==> IsLine(l)
  }

  lemma ResultLineIsALine(r: Finished)
    requires IsToken(r.launchId)
    ensures IsLine(ResultLine(r))
  {
    assert IsLine(FamilyName(r.family)) && IsLine(OutcomeName(r.outcome)) && IsLine(DOT) && IsLine(RESULT);
    assert IsLine(r.launchId) && IsLine(OneLine(r.labelText, MAX_LABEL_CHARS));
  }

  lemma EventTextIsALine(e: EventLine)
    requires IsToken(e.launchId)
    ensures IsLine(EventText(e))
  {
    assert IsLine(DOT) && IsLine(EVENT) && IsLine("monitor") && IsLine("@");
    assert IsLine(e.launchId) && IsLine(OneLine(e.labelText, MAX_LABEL_CHARS))
           && IsLine(OneLine(e.text, MAX_EVENT_CHARS));
    assert IsLine(Decimal(e.endOffset));
  }

  lemma {:induction false} ResultLinesAreLines(shown: seq<Finished>, details: map<string, string>)
    requires forall r :: r in shown ==> IsToken(r.launchId)
    ensures AreLines(ResultLines(shown, details))
    decreases shown
  {
    if shown != [] {
      FirstIsIn(shown);
      ResultLineIsALine(shown[0]);
      assert AreLines(DetailLines(shown[0], details));
      ResultLinesAreLines(shown[1..], details);
    }
  }

  lemma {:induction false} EventTextsAreLines(shown: seq<EventLine>)
    requires forall e :: e in shown ==> IsToken(e.launchId)
    ensures AreLines(EventTexts(shown))
    decreases shown
  {
    if shown != [] {
      FirstIsIn(shown);
      EventTextIsALine(shown[0]);
      EventTextsAreLines(shown[1..]);
    }
  }

  lemma EventLinesKeys(events: seq<EventLine>)
    requires forall e :: e in Take(events, MAX_EVENTS_PER_PROMPT) ==> IsToken(e.launchId)
    ensures AreLines(EventLines(events)) && KeysOfLines(EventLines(events)) == Keys(Take(events, MAX_EVENTS_PER_PROMPT))
  {
    if events != [] {
      var shown := Take(events, MAX_EVENTS_PER_PROMPT);
      var more := if |events| > MAX_EVENTS_PER_PROMPT then [MORE_EVENTS] else [];
      EventTextsAreLines(shown);
      EventTextsKeys(shown);
      EventsHeaderIsALine();
      MoreEventsIsALine();
      FixedLinesHaveNoKeys();
      OneLineKeys(EVENTS_HEADER);
      OneLineKeys(MORE_EVENTS);
      KeysConcat([EVENTS_HEADER], EventTexts(shown));
      KeysConcat([EVENTS_HEADER] + EventTexts(shown), more);
    }
  }

  lemma KeylessFirst(line: string, lines: seq<string>)
    requires LineKeys(line) == []
    ensures KeysOfLines([line] + lines) == KeysOfLines(lines)
  {
    assert ([line] + lines)[1..] == lines;
  }

  lemma KeylessAfter(lines: seq<string>, more: seq<string>)
    requires KeysOfLines(more) == []
    ensures KeysOfLines(lines + more) == KeysOfLines(lines)
  {
    KeysConcat(lines, more);
  }

  lemma KeylessLinesAround(header: string, lines: seq<string>, more: seq<string>, eventLines: seq<string>,
                           footer: string)
    requires LineKeys(header) == [] && LineKeys(footer) == [] && KeysOfLines(more) == []
    ensures KeysOfLines([header] + lines + more + eventLines + [footer]) == KeysOfLines(lines) + KeysOfLines(eventLines)
  {
    OneLineKeys(footer);
    KeylessFirst(header, lines);
    KeylessAfter([header] + lines, more);
    KeysConcat([header] + lines + more, eventLines);
    KeylessAfter([header] + lines + more + eventLines, [footer]);
  }

  lemma BetweenKeys(lines: seq<string>, rest: int, eventLines: seq<string>)
    requires AreLines(lines) && AreLines(eventLines)
    ensures AreLines(Between(lines, rest, eventLines))
    ensures KeysOfLines(Between(lines, rest, eventLines)) == KeysOfLines(lines) + KeysOfLines(eventLines)
  {
    var more := if rest > 0 then [Decimal(rest) + MORE_RESULTS] else [];
    HeaderIsALine();
    FooterIsALine();
    FixedLinesHaveNoKeys();
    if rest > 0 {
      MoreResultsIsALine(rest);
      NumberLineHasNoKeys(rest, MORE_RESULTS);
      OneLineKeys(Decimal(rest) + MORE_RESULTS);
    }
    KeylessLinesAround(HEADER, lines, more, eventLines, FOOTER);
  }

  lemma EmptyBlock()
    ensures BlockKeys("") == []
  {
    assert HEADER[0] == 'c';
  }

  /** What the parser reads back from a printed notice is exactly the keys of what the notice shows. */
  lemma KeysReadBackAreTheKeysShown(results: seq<Finished>, details: map<string, string>, events: seq<EventLine>)
    requires forall r :: r in Take(results, MAX_RESULTS_PER_PROMPT) ==> IsToken(r.launchId)
    requires forall e :: e in Take(events, MAX_EVENTS_PER_PROMPT) ==> IsToken(e.launchId)
    ensures BlockKeys(Context(results, details, events)) ==
            Ids(Take(results, MAX_RESULTS_PER_PROMPT)) + Keys(Take(events, MAX_EVENTS_PER_PROMPT))
  {
    if results == [] && events == [] {
      EmptyBlock();
    } else {
      var shown := Take(results, MAX_RESULTS_PER_PROMPT);
      var lines := ResultLines(shown, details);
      ResultLinesAreLines(shown, details);
      ResultLinesKeys(shown, details);
      EventLinesKeys(events);
      BetweenKeys(lines, |results| - MAX_RESULTS_PER_PROMPT, EventLines(events));
      SplitJoin(ContextLines(results, details, events));
      HeaderIsTrimmed();
      assert ContextLines(results, details, events)[0] == HEADER;
    }
  }

  lemma LineKeyIsAToken(line: string)
    ensures forall k :: k in LineKeys(line) ==> IsToken(k)
  {
    if ResultKey(line).None? && EventKey(line).Some? {
      var t := TokenAfter(line, EVENT).value;
      var at := EventKeys.LastAt(t);
      var id, digits := t[..at], Decimal(NumberOf(t[at + 1..]));
      forall c | c in EventKeys.Printed(id, NumberOf(t[at + 1..])) ensures !IsSpace(c) {
        assert c in EventKeys.PREFIX || c in id || c == '@' || c in digits;
      }
    }
  }

  lemma {:induction false} EveryKeyIsAToken(lines: seq<string>)
    ensures forall k :: k in KeysOfLines(lines) ==> IsToken(k)
    decreases lines
  {
    if lines != [] {
      LineKeyIsAToken(lines[0]);
      EveryKeyIsAToken(lines[1..]);
    }
  }

  /** Every result shown is read back exactly when all their names are free of white space and not empty. */
  lemma ReadBackExactlyTokens(results: seq<Finished>, details: map<string, string>, events: seq<EventLine>)
    requires forall e :: e in Take(events, MAX_EVENTS_PER_PROMPT) ==> IsToken(e.launchId)
    ensures var shown := Take(results, MAX_RESULTS_PER_PROMPT);
            (forall r :: r in shown ==> r.launchId in BlockKeys(Context(results, details, events)))
            <==> (forall r :: r in shown ==> IsToken(r.launchId))
  {
    var shown, block := Take(results, MAX_RESULTS_PER_PROMPT), Context(results, details, events);
    if forall r :: r in shown ==> IsToken(r.launchId) {
      KeysReadBackAreTheKeysShown(results, details, events);
      forall r | r in shown ensures r.launchId in BlockKeys(block) {
        var k :| 0 <= k < |shown| && shown[k] == r;
        assert Ids(shown)[k] == r.launchId;
      }
    } else {
      EveryKeyIsAToken(Split(block));
    }
  }
}
