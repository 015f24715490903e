/**
 The view projector of the mod's sidecar: one pass over the served thread view that builds
 the messages Claude Code installs. A call's result must follow it directly, so a note that
 arrives while a call runs is held back, a later part of the same response is merged into
 the open message, and a call the view never answers gets a dangling result.
 */
module Projector {
  import opened Basics
  import PlainText

  const DANGLING := "[tool result unavailable: the session was interrupted before this call completed]"

  // ----- The served view -----

  datatype Part =
    | TextPart(text: string)
    | CallPart(callId: Option<string>, toolName: Option<string>, arguments: string)
    | OtherPart

  datatype Entry =
    | Bare  // an entry without a role
    | UserEntry(content: string, kinds: seq<string>, messageId: string)
    | ResultEntry(callId: string, content: string, kinds: seq<string>, messageId: string, isError: bool)
    | AssistantEntry(parts: seq<Part>)

  // ----- The built messages -----

  datatype Use = Use(id: string, tool: string, input: string, text: Option<string>, isError: bool)

  datatype ToolResult = ToolResult(id: string, text: string, isError: bool)

  datatype Msg =
    | Assistant(text: string, uses: seq<Use>)
    | UserText(text: string)
    | Answer(result: ToolResult)

  /** The block kinds other than text, each once, in order of first appearance. */
  function OmittedKinds(kinds: seq<string>): seq<string> {
    if kinds == [] then []
    else
      var before := OmittedKinds(kinds[..|kinds| - 1]);
      var kind := kinds[|kinds| - 1];
      if kind == "text" || kind in before then before else before + [kind]
  }

  /** Two texts on lines of their own; an empty one leaves no line. */
  function JoinLines(a: string, b: string): string {
    if a == "" then b else if b == "" then a else a + "\n" + b
  }

  function JoinNotes(text: string, kinds: seq<string>, messageId: string): string {
    if kinds == [] then text
    else JoinLines(JoinNotes(text, kinds[..|kinds| - 1], messageId),
                   "[" + kinds[|kinds| - 1] + " omitted by LHC: " + messageId + "]")
  }

  function WithPlaceholders(text: string, kinds: seq<string>, messageId: string): string {
    JoinNotes(text, OmittedKinds(kinds), messageId)
  }

  function ResultText(e: Entry): string
    requires e.ResultEntry?
  {
    var text := WithPlaceholders(e.content, e.kinds, e.messageId);
    if text == "" then "[empty tool result: " + e.messageId + "]" else text
  }

  function ResultOf(e: Entry): ToolResult
    requires e.ResultEntry?
  {
    ToolResult(e.callId, ResultText(e), e.isError)
  }

  function PartsText(parts: seq<Part>): string {
    if parts == [] then ""
    else
      var before, part := PartsText(parts[..|parts| - 1]), parts[|parts| - 1];
      if part.TextPart? then JoinLines(before, part.text) else before
  }

  function UseOf(part: Part): Use
    requires part.CallPart?
  {
    Use(part.callId.GetOr(""), part.toolName.GetOr("unknown_tool"), part.arguments, None, false)
  }

  function PartsUses(parts: seq<Part>): (uses: seq<Use>)
    ensures forall u :: u in uses ==> u.text.None? && !u.isError
  {
    if parts == [] then []
    else
      var before, part := PartsUses(parts[..|parts| - 1]), parts[|parts| - 1];
      if part.CallPart? then before + [UseOf(part)] else before
  }

  /** The ids the view holds a result for. */
  function AnsweredIds(view: seq<Entry>): set<string> {
    set e | e in view && e.ResultEntry? :: e.callId
  }

  // ----- One pass, on values -----

  /** `open` is the position of the message whose tool uses may still be answered. */
  datatype State = State(built: seq<Msg>, open: Option<nat>, held: seq<string>) {
    ghost predicate Valid() {
      open.Some? ==> open.value < |built| && built[open.value].Assistant?
    }

    function OpenUses(): seq<Use> {
      if open.Some? && open.value < |built| && built[open.value].Assistant? then built[open.value].uses else []
    }
  }

  predicate Waits(uses: seq<Use>, answered: set<string>) {
    exists u :: u in uses && u.text.None? && u.id in answered
  }

  function Notes(texts: seq<string>): seq<Msg> {
    seq(|texts|, i requires 0 <= i < |texts| => UserText(texts[i]))
  }

  function Dangled(u: Use): Use {
    if u.text.Some? then u else u.(text := Some(DANGLING), isError := true)
  }

  function DangledUses(uses: seq<Use>): seq<Use> {
    seq(|uses|, i requires 0 <= i < |uses| => Dangled(uses[i]))
  }

  function DanglingAnswers(uses: seq<Use>): seq<Msg> {
    if uses == [] then []
    else
      var before, u := DanglingAnswers(uses[..|uses| - 1]), uses[|uses| - 1];
      if u.text.Some? then before else before + [Answer(ToolResult(u.id, DANGLING, true))]
  }

  /** The first use with the result's id takes its text. */
  function AnswerUse(uses: seq<Use>, r: ToolResult): seq<Use> {
    if uses == [] then []
    else if uses[0].id == r.id then
      [uses[0].(text := Some(r.text), isError := uses[0].isError || r.isError)] + uses[1..]
    else [uses[0]] + AnswerUse(uses[1..], r)
  }

  function SetOpenUses(s: State, uses: seq<Use>): State
    requires s.Valid()
  {
    if s.open.None? then s
    else s.(built := s.built[s.open.value := s.built[s.open.value].(uses := uses)])
  }

  function ReleaseHeld(s: State): State {
    s.(built := s.built + Notes(s.held), held := [])
  }

  function Settle(s: State): State
    requires s.Valid()
  {
    var uses := s.OpenUses();
    var settled := SetOpenUses(s, DangledUses(uses));
    State(settled.built + DanglingAnswers(uses) + Notes(s.held), None, [])
  }

  function TakeResult(s: State, r: ToolResult, answered: set<string>): State
    requires s.Valid()
  {
    var told := SetOpenUses(s, AnswerUse(s.OpenUses(), r));
    var next := told.(built := told.built + [Answer(r)]);
    if Waits(next.OpenUses(), answered) then next else ReleaseHeld(next)
  }

  function TakeUser(s: State, text: string, answered: set<string>): State
    requires s.Valid()
  {
    if text == "" then s
    else if Waits(s.OpenUses(), answered) then s.(held := s.held + [text])
    else var t := Settle(s); t.(built := t.built + [UserText(text)])
  }

  function TakeAssistant(s: State, text: string, uses: seq<Use>, answered: set<string>): State
    requires s.Valid()
  {
    if text == "" && uses == [] then s
    else if Waits(s.OpenUses(), answered) then
      var m := s.built[s.open.value];
      s.(built := s.built[s.open.value := Assistant(JoinLines(m.text, text), m.uses + uses)])
    else
      var t := Settle(s);
      State(t.built + [Assistant(text, uses)], Some(|t.built|), [])
  }

  function Step(s: State, e: Entry, answered: set<string>): State
    requires s.Valid()
  {
    match e
    case Bare => s
    case ResultEntry(_, _, _, _, _) => TakeResult(s, ResultOf(e), answered)
    case UserEntry(content, kinds, id) => TakeUser(s, WithPlaceholders(content, kinds, id), answered)
    case AssistantEntry(parts) => TakeAssistant(s, PartsText(parts), PartsUses(parts), answered)
  }

  function Run(view: seq<Entry>, answered: set<string>): (s: State)
    ensures s.Valid()
  {
    if view == [] then State([], None, [])
    else Step(Run(view[..|view| - 1], answered), view[|view| - 1], answered)
  }

  function Project(view: seq<Entry>): seq<Msg> {
    Settle(Run(view, AnsweredIds(view))).built
  }

  // ----- What the view holds and what the messages hold -----

  datatype Call = Call(id: string, tool: string, input: string)

  /** Tool calls, assistant text, user texts and tool results, each kind in its own order. */
  datatype Content = Content(calls: seq<Call>, text: string, notes: seq<string>, answers: seq<ToolResult>) {
    function Plus(c: Content): Content {
      Content(calls + c.calls, JoinLines(text, c.text), notes + c.notes, answers + c.answers)
    }
  }

  const NOTHING := Content([], "", [], [])

  function CallsOf(uses: seq<Use>): (calls: seq<Call>)
    ensures |calls| == |uses|
  {
    seq(|uses|, i requires 0 <= i < |uses| => Call(uses[i].id, uses[i].tool, uses[i].input))
  }

  /** A result message for a call the view answers counts as that answer; a dangling one does not. */
  function MsgContent(m: Msg, answered: set<string>): Content {
    match m
    case Assistant(text, uses) => Content(CallsOf(uses), text, [], [])
    case UserText(text) => Content([], "", [text], [])
    case Answer(r) => Content([], "", [], if r.id in answered then [r] else [])
  }

  function EntryContent(e: Entry): Content {
    match e
    case Bare => NOTHING
    case UserEntry(content, kinds, id) =>
      var text := WithPlaceholders(content, kinds, id);
      Content([], "", if text == "" then [] else [text], [])
    case ResultEntry(_, _, _, _, _) => Content([], "", [], [ResultOf(e)])
    case AssistantEntry(parts) => Content(CallsOf(PartsUses(parts)), PartsText(parts), [], [])
  }

  function BuiltContent(msgs: seq<Msg>, answered: set<string>): Content {
    if msgs == [] then NOTHING
    else BuiltContent(msgs[..|msgs| - 1], answered).Plus(MsgContent(msgs[|msgs| - 1], answered))
  }

  function ViewContent(view: seq<Entry>): Content {
    if view == [] then NOTHING
    else ViewContent(view[..|view| - 1]).Plus(EntryContent(view[|view| - 1]))
  }

  lemma JoinLinesAssociative(a: string, b: string, c: string)
    ensures JoinLines(JoinLines(a, b), c) == JoinLines(a, JoinLines(b, c))
  {
    if a != "" && b != "" && c != "" {
      assert (a + "\n" + b) + "\n" + c == a + "\n" + (b + "\n" + c);
    }
  }

  lemma PlusAssociative(a: Content, b: Content, c: Content)
    ensures a.Plus(b).Plus(c) == a.Plus(b.Plus(c))
    ensures a.Plus(NOTHING) == a && NOTHING.Plus(a) == a
  {
    JoinLinesAssociative(a.text, b.text, c.text);
    assert a.calls + b.calls + c.calls == a.calls + (b.calls + c.calls);
    assert a.notes + b.notes + c.notes == a.notes + (b.notes + c.notes);
    assert a.answers + b.answers + c.answers == a.answers + (b.answers + c.answers);
  }

  lemma {:induction false} BuiltContentAppend(a: seq<Msg>, b: seq<Msg>, answered: set<string>)
    ensures BuiltContent(a + b, answered) == BuiltContent(a, answered).Plus(BuiltContent(b, answered))
  {
    PlusAssociative(BuiltContent(a, answered), NOTHING, NOTHING);
    if b == [] {
      assert a + b == a;
    } else {
      var front, last := b[..|b| - 1], b[|b| - 1];
      assert (a + b)[..|a + b| - 1] == a + front;
      BuiltContentAppend(a, front, answered);
      PlusAssociative(BuiltContent(a, answered), BuiltContent(front, answered), MsgContent(last, answered));
    }
  }

  lemma BuiltContentOne(m: Msg, answered: set<string>)
    ensures BuiltContent([m], answered) == MsgContent(m, answered)
  {
    assert [m][..0] == [];
    PlusAssociative(MsgContent(m, answered), NOTHING, NOTHING);
  }

  lemma {:induction false} NotesContent(texts: seq<string>, answered: set<string>)
    ensures BuiltContent(Notes(texts), answered) == Content([], "", texts, [])
  {
    if texts != [] {
      var n := |texts| - 1;
      assert Notes(texts)[..n] == Notes(texts[..n]);
      NotesContent(texts[..n], answered);
      assert texts[..n] + [texts[n]] == texts;
    }
  }

  lemma {:induction false} DanglingContent(uses: seq<Use>, answered: set<string>)
    ensures var c := BuiltContent(DanglingAnswers(uses), answered); c == Content([], "", [], c.answers)
    ensures !Waits(uses, answered) ==> BuiltContent(DanglingAnswers(uses), answered).answers == []
  {
    if uses != [] {
      var n := |uses| - 1;
      var front, u := uses[..n], uses[n];
      DanglingContent(front, answered);
      if u.text.None? {
        var m := Answer(ToolResult(u.id, DANGLING, true));
        assert DanglingAnswers(uses)[..|DanglingAnswers(front)|] == DanglingAnswers(front);
        assert BuiltContent(DanglingAnswers(uses), answered)
            == BuiltContent(DanglingAnswers(front), answered).Plus(MsgContent(m, answered));
        assert u in uses;
      }
      if !Waits(uses, answered) {
        assert forall v :: v in front ==> v in uses;
        assert !Waits(front, answered);
      }
    }
  }

  /** After the open message come results and user texts only. */
  ghost predicate NoLaterResponse(s: State) {
    s.open.Some? ==> forall j :: s.open.value < j < |s.built| ==> !s.built[j].Assistant?
  }

  lemma {:induction false} PlainContent(msgs: seq<Msg>, answered: set<string>)
    requires forall j :: 0 <= j < |msgs| ==> !msgs[j].Assistant?
    ensures BuiltContent(msgs, answered).calls == [] && BuiltContent(msgs, answered).text == ""
  {
    if msgs != [] {
      PlainContent(msgs[..|msgs| - 1], answered);
    }
  }

  lemma PlugContent(msgs: seq<Msg>, o: nat, m: Msg, answered: set<string>)
    requires o < |msgs|
    ensures BuiltContent(msgs[o := m], answered)
            == BuiltContent(msgs[..o], answered)
               .Plus(MsgContent(m, answered).Plus(BuiltContent(msgs[o + 1..], answered)))
  {
    assert msgs[o := m] == msgs[..o] + ([m] + msgs[o + 1..]);
    BuiltContentAppend(msgs[..o], [m] + msgs[o + 1..], answered);
    BuiltContentAppend([m], msgs[o + 1..], answered);
    BuiltContentOne(m, answered);
  }

  /** Past the open message there is neither text nor a call, so what it gains comes last. */
  lemma GainCommutes(m: Content, gain: Content, rest: Content)
    requires rest.calls == [] && rest.text == "" && gain.notes == [] && gain.answers == []
    ensures m.Plus(gain).Plus(rest) == m.Plus(rest).Plus(gain)
  {
  }

  /** Adding text and calls to the open message adds them at the end of the content. */
  lemma ExtendOpen(s: State, text: string, uses: seq<Use>, answered: set<string>)
    requires s.Valid() && NoLaterResponse(s) && s.open.Some?
    ensures var m := s.built[s.open.value];
            BuiltContent(s.built[s.open.value := Assistant(JoinLines(m.text, text), m.uses + uses)], answered)
            == BuiltContent(s.built, answered).Plus(Content(CallsOf(uses), text, [], []))
  {
    var o := s.open.value;
    var m := s.built[o];
    var grown := Assistant(JoinLines(m.text, text), m.uses + uses);
    var p, q := BuiltContent(s.built[..o], answered), BuiltContent(s.built[o + 1..], answered);
    var c, gain := MsgContent(m, answered), Content(CallsOf(uses), text, [], []);
    PlugContent(s.built, o, grown, answered);
    PlugContent(s.built, o, m, answered);
    assert s.built[o := m] == s.built;
    assert MsgContent(grown, answered) == c.Plus(gain) by {
      assert CallsOf(m.uses + uses) == CallsOf(m.uses) + CallsOf(uses);
    }
    PlainContent(s.built[o + 1..], answered);
    GainCommutes(c, gain, q);
    PlusAssociative(p, c.Plus(q), gain);
  }

  /** Answering or settling uses of the open message does not change what it contains. */
  lemma RetellOpen(s: State, uses: seq<Use>, answered: set<string>)
    requires s.Valid() && CallsOf(uses) == CallsOf(s.OpenUses())
    ensures BuiltContent(SetOpenUses(s, uses).built, answered) == BuiltContent(s.built, answered)
    ensures SetOpenUses(s, uses).Valid()
    ensures NoLaterResponse(s) ==> NoLaterResponse(SetOpenUses(s, uses))
  {
    if s.open.Some? {
      var o := s.open.value;
      PlugContent(s.built, o, s.built[o], answered);
      PlugContent(s.built, o, s.built[o].(uses := uses), answered);
      assert s.built[o := s.built[o]] == s.built;
    }
  }

  lemma {:induction false} AnswerUseKeepsCalls(uses: seq<Use>, r: ToolResult)
    ensures |AnswerUse(uses, r)| == |uses| && CallsOf(AnswerUse(uses, r)) == CallsOf(uses)
    ensures forall i :: 0 <= i < |uses| ==> AnswerUse(uses, r)[i].id == uses[i].id
  {
    if uses != [] && uses[0].id != r.id {
      AnswerUseKeepsCalls(uses[1..], r);
      var after := AnswerUse(uses, r);
      forall i | 0 <= i < |uses| ensures CallsOf(after)[i] == CallsOf(uses)[i] {
        if i > 0 {
          assert CallsOf(AnswerUse(uses[1..], r))[i - 1] == CallsOf(uses[1..])[i - 1];
        }
      }
    }
  }

  /** What is built plus what is held is what was seen; `exact` says the results are included. */
  ghost predicate Accounts(s: State, seen: Content, answered: set<string>, exact: bool) {
    var have := BuiltContent(s.built, answered).Plus(Content([], "", s.held, []));
    if exact then have == seen else have.(answers := []) == seen.(answers := [])
  }

  lemma SettleAccounts(s: State, seen: Content, answered: set<string>, exact: bool)
    requires s.Valid() && Accounts(s, seen, answered, exact)
    requires exact ==> !Waits(s.OpenUses(), answered)
    ensures Accounts(Settle(s), seen, answered, exact) && Settle(s).held == [] && Settle(s).open.None?
  {
    var uses := s.OpenUses();
    assert CallsOf(DangledUses(uses)) == CallsOf(uses);
    RetellOpen(s, DangledUses(uses), answered);
    var settled := SetOpenUses(s, DangledUses(uses));
    var built := BuiltContent(s.built, answered);
    var dangling := BuiltContent(DanglingAnswers(uses), answered);
    BuiltContentAppend(settled.built + DanglingAnswers(uses), Notes(s.held), answered);
    BuiltContentAppend(settled.built, DanglingAnswers(uses), answered);
    DanglingContent(uses, answered);
    NotesContent(s.held, answered);
    PlusAssociative(built, NOTHING, NOTHING);
    PlusAssociative(BuiltContent(Settle(s).built, answered), NOTHING, NOTHING);
  }

  lemma ReleaseAccounts(s: State, seen: Content, answered: set<string>, exact: bool)
    requires s.Valid() && Accounts(s, seen, answered, exact)
    ensures Accounts(ReleaseHeld(s), seen, answered, exact)
  {
    BuiltContentAppend(s.built, Notes(s.held), answered);
    NotesContent(s.held, answered);
    PlusAssociative(BuiltContent(ReleaseHeld(s).built, answered), NOTHING, NOTHING);
  }

  lemma AppendAccounts(s: State, m: Msg, seen: Content, answered: set<string>, exact: bool)
    requires s.Valid() && Accounts(s, seen, answered, exact)
    requires m.UserText? || m.Assistant? ==> s.held == []
    ensures Accounts(s.(built := s.built + [m]), seen.Plus(MsgContent(m, answered)), answered, exact)
  {
    BuiltContentAppend(s.built, [m], answered);
    BuiltContentOne(m, answered);
    PlusAssociative(BuiltContent(s.built, answered), NOTHING, NOTHING);
    PlusAssociative(BuiltContent(s.built + [m], answered), NOTHING, NOTHING);
  }

  lemma ResultAccounts(s: State, r: ToolResult, seen: Content, answered: set<string>)
    requires s.Valid() && NoLaterResponse(s) && Accounts(s, seen, answered, true) && r.id in answered
    ensures Accounts(TakeResult(s, r, answered), seen.Plus(Content([], "", [], [r])), answered, true)
    ensures NoLaterResponse(TakeResult(s, r, answered))
  {
    AnswerUseKeepsCalls(s.OpenUses(), r);
    var told := SetOpenUses(s, AnswerUse(s.OpenUses(), r));
    RetellOpen(s, AnswerUse(s.OpenUses(), r), answered);
    AppendAccounts(told, Answer(r), seen, answered, true);
    var next := told.(built := told.built + [Answer(r)]);
    ReleaseAccounts(next, seen.Plus(Content([], "", [], [r])), answered, true);
  }

  lemma UserAccounts(s: State, text: string, seen: Content, answered: set<string>)
    requires s.Valid() && NoLaterResponse(s) && Accounts(s, seen, answered, true) && text != ""
    ensures Accounts(TakeUser(s, text, answered), seen.Plus(Content([], "", [text], [])), answered, true)
    ensures NoLaterResponse(TakeUser(s, text, answered))
  {
    if Waits(s.OpenUses(), answered) {
      PlusAssociative(BuiltContent(s.built, answered), Content([], "", s.held, []), Content([], "", [text], []));
    } else {
      SettleAccounts(s, seen, answered, true);
      AppendAccounts(Settle(s), UserText(text), seen, answered, true);
    }
  }

  lemma AssistantAccounts(s: State, text: string, uses: seq<Use>, seen: Content, answered: set<string>)
    requires s.Valid() && NoLaterResponse(s) && Accounts(s, seen, answered, true) && (text != "" || uses != [])
    ensures Accounts(TakeAssistant(s, text, uses, answered), seen.Plus(Content(CallsOf(uses), text, [], [])),
                     answered, true)
    ensures NoLaterResponse(TakeAssistant(s, text, uses, answered))
  {
    if Waits(s.OpenUses(), answered) {
      ExtendOpen(s, text, uses, answered);
      var built, held, more := BuiltContent(s.built, answered), Content([], "", s.held, []),
                               Content(CallsOf(uses), text, [], []);
      PlusAssociative(built, held, more);
      PlusAssociative(built, more, held);
      assert held.Plus(more) == more.Plus(held);
    } else {
      SettleAccounts(s, seen, answered, true);
      AppendAccounts(Settle(s), Assistant(text, uses), seen, answered, true);
    }
  }

  lemma StepAccounts(s: State, e: Entry, seen: Content, answered: set<string>)
    requires s.Valid() && NoLaterResponse(s) && Accounts(s, seen, answered, true)
    requires e.ResultEntry? ==> e.callId in answered
    ensures Accounts(Step(s, e, answered), seen.Plus(EntryContent(e)), answered, true)
    ensures NoLaterResponse(Step(s, e, answered))
  {
    PlusAssociative(seen, NOTHING, NOTHING);
    match e
    case Bare =>
    case ResultEntry(_, _, _, _, _) =>
      ResultAccounts(s, ResultOf(e), seen, answered);
    case UserEntry(content, kinds, id) =>
      var text := WithPlaceholders(content, kinds, id);
      if text != "" {
        UserAccounts(s, text, seen, answered);
      }
    case AssistantEntry(parts) =>
      var text, uses := PartsText(parts), PartsUses(parts);
      if text == "" && uses == [] {
        assert CallsOf(uses) == [];
      } else {
        AssistantAccounts(s, text, uses, seen, answered);
      }
  }

  lemma {:induction false} RunAccounts(view: seq<Entry>, answered: set<string>)
    requires AnsweredIds(view) <= answered
    ensures Accounts(Run(view, answered), ViewContent(view), answered, true)
    ensures NoLaterResponse(Run(view, answered))
  {
    if view != [] {
      var front, e := view[..|view| - 1], view[|view| - 1];
      assert AnsweredIds(front) <= AnsweredIds(view);
      RunAccounts(front, answered);
      assert e in view;
      StepAccounts(Run(front, answered), e, ViewContent(front), answered);
    }
  }

  // ----- Pairing of calls and results -----

  predicate HasCall(c: Content, id: string) {
    exists k :: 0 <= k < |c.calls| && c.calls[k].id == id
  }

  predicate HasAnswer(c: Content, id: string) {
    exists k :: 0 <= k < |c.answers| && c.answers[k].id == id
  }

  ghost predicate DistinctIds(uses: seq<Use>) {
    forall a, b :: 0 <= a < b < |uses| ==> uses[a].id != uses[b].id
  }

  /** Call ids are new, no result precedes its call, and a call has one result at most. */
  ghost predicate Admissible(seen: Content, e: Entry) {
    match e
    case ResultEntry(id, _, _, _, _) => HasCall(seen, id) ==> !HasAnswer(seen, id)
    case AssistantEntry(parts) =>
      && DistinctIds(PartsUses(parts))
      && forall u :: u in PartsUses(parts) ==> !HasCall(seen, u.id) && !HasAnswer(seen, u.id)
    case _ => true
  }

  ghost predicate WellFormed(view: seq<Entry>) {
    view != [] ==>
      && WellFormed(view[..|view| - 1])
      && Admissible(ViewContent(view[..|view| - 1]), view[|view| - 1])
  }

  /**
   Message j answers use u of message i: with the view's own result when it holds one, and
   then no user text stands between, else with the dangling text; in both cases no response
   stands between.
   */
  ghost predicate Pair(built: seq<Msg>, i: int, j: int, u: Use, given: seq<ToolResult>, answered: set<string>) {
    && 0 <= i < j < |built| && u.text.Some?
    && built[j] == Answer(ToolResult(u.id, u.text.value, u.isError))
    && (forall m :: i < m < j ==> !built[m].Assistant? && (u.id in answered ==> !built[m].UserText?))
    && (if u.id in answered then built[j].result in given else built[j].result == ToolResult(u.id, DANGLING, true))
  }

  ghost predicate Paired(built: seq<Msg>, i: int, u: Use, given: seq<ToolResult>, answered: set<string>) {
    exists j :: Pair(built, i, j, u, given, answered)
  }

  ghost predicate Pending(s: State, i: int, u: Use) {
    s.open == Some(i) && u.text.None? && !u.isError
  }

  ghost predicate UsesSettled(s: State, seen: Content, answered: set<string>) {
    forall i, u :: 0 <= i < |s.built| && s.built[i].Assistant? && u in s.built[i].uses ==>
      Pending(s, i, u) || Paired(s.built, i, u, seen.answers, answered)
  }

  predicate SameAnswerId(a: Msg, b: Msg) {
    a.Answer? && b.Answer? && a.result.id == b.result.id
  }

  /** Where an answer message may come from, and that a call has one of them only. */
  ghost predicate AnswersKnown(s: State, seen: Content, answered: set<string>) {
    && (forall j :: 0 <= j < |s.built| && s.built[j].Answer? ==>
          var id := s.built[j].result.id; HasAnswer(seen, id) || (id !in answered && HasCall(seen, id)))
    && (forall j, k :: (0 <= j < k < |s.built| && SameAnswerId(s.built[j], s.built[k])) ==>
          !HasCall(seen, s.built[j].result.id))
  }

  ghost predicate PendingUnanswered(s: State, seen: Content) {
    forall u :: u in s.OpenUses() && u.text.None? ==>
      && !HasAnswer(seen, u.id)
      && forall j :: 0 <= j < |s.built| && s.built[j].Answer? ==> s.built[j].result.id != u.id
  }

  ghost predicate WaitingTail(s: State, answered: set<string>) {
    && (Waits(s.OpenUses(), answered) ==> forall j :: s.open.value < j < |s.built| ==> s.built[j].Answer?)
    && (s.held != [] ==> Waits(s.OpenUses(), answered))
  }

  ghost predicate CallsSeen(s: State, seen: Content) {
    forall id :: HasCall(seen, id) <==>
      exists i, u :: 0 <= i < |s.built| && s.built[i].Assistant? && u in s.built[i].uses && u.id == id
  }

  ghost predicate Inv(s: State, seen: Content, answered: set<string>) {
    && s.Valid() && NoLaterResponse(s) && DistinctIds(s.OpenUses())
    && UsesSettled(s, seen, answered) && AnswersKnown(s, seen, answered)
    && PendingUnanswered(s, seen) && WaitingTail(s, answered)
  }

  lemma {:induction false} BuiltCalls(msgs: seq<Msg>, answered: set<string>, id: string)
    ensures HasCall(BuiltContent(msgs, answered), id) <==>
            exists i, u :: 0 <= i < |msgs| && msgs[i].Assistant? && u in msgs[i].uses && u.id == id
  {
    if msgs != [] {
      var n := |msgs| - 1;
      BuiltCalls(msgs[..n], answered, id);
      var before, last := BuiltContent(msgs[..n], answered), MsgContent(msgs[n], answered);
      var all := BuiltContent(msgs, answered);
      assert all.calls == before.calls + last.calls;
      if k :| 0 <= k < |all.calls| && all.calls[k].id == id {
        if k < |before.calls| {
          assert before.calls[k] == all.calls[k];
        } else {
          assert last.calls[k - |before.calls|] == all.calls[k];
          assert msgs[n].uses[k - |before.calls|] in msgs[n].uses;
        }
      }
      if i, u :| 0 <= i < |msgs| && msgs[i].Assistant? && u in msgs[i].uses && u.id == id {
        if i == n {
          var a :| 0 <= a < |msgs[n].uses| && msgs[n].uses[a] == u;
          assert all.calls[|before.calls| + a].id == id;
        } else {
          assert msgs[..n][i] == msgs[i];
          var k :| 0 <= k < |before.calls| && before.calls[k].id == id;
          assert all.calls[k] == before.calls[k];
        }
      }
    }
  }

  lemma AccountsSeesCalls(s: State, seen: Content, answered: set<string>)
    requires Accounts(s, seen, answered, true)
    ensures CallsSeen(s, seen)
  {
    forall id ensures HasCall(seen, id) <==>
      exists i, u :: 0 <= i < |s.built| && s.built[i].Assistant? && u in s.built[i].uses && u.id == id
    {
      BuiltCalls(s.built, answered, id);
      assert seen.calls == BuiltContent(s.built, answered).calls;
    }
  }

  lemma PairedGrows(a: seq<Msg>, b: seq<Msg>, i: int, u: Use, given: seq<ToolResult>, more: seq<ToolResult>,
                    answered: set<string>)
    requires Paired(a, i, u, given, answered)
    requires |a| <= |b| && forall k :: 0 <= k < |a| ==> b[k] == a[k] || (a[k].Assistant? && b[k].Assistant?)
    requires forall r :: r in given ==> r in more
    ensures Paired(b, i, u, more, answered)
  {
    var j :| Pair(a, i, j, u, given, answered);
    assert Pair(b, i, j, u, more, answered);
  }

  lemma {:induction false} AnswerUseAt(uses: seq<Use>, r: ToolResult, a: nat)
    requires DistinctIds(uses) && a < |uses|
    ensures |AnswerUse(uses, r)| == |uses|
    ensures AnswerUse(uses, r)[a] ==
            if uses[a].id == r.id then uses[a].(text := Some(r.text), isError := uses[a].isError || r.isError)
            else uses[a]
  {
    AnswerUseKeepsCalls(uses, r);
    if uses[0].id != r.id && a > 0 {
      AnswerUseAt(uses[1..], r, a - 1);
    }
  }

  lemma {:induction false} AnswerUseFirst(uses: seq<Use>, r: ToolResult, i: nat)
    requires i <= |uses| && (forall k :: 0 <= k < i ==> uses[k].id != r.id) && (i < |uses| ==> uses[i].id == r.id)
    ensures AnswerUse(uses, r) ==
            if i == |uses| then uses
            else uses[i := uses[i].(text := Some(r.text), isError := uses[i].isError || r.isError)]
  {
    if i > 0 {
      AnswerUseFirst(uses[1..], r, i - 1);
    }
  }

  lemma {:induction false} DanglingAnswersAre(uses: seq<Use>)
    ensures var d := DanglingAnswers(uses);
      && (forall k :: 0 <= k < |d| ==>
            d[k].Answer? && exists u :: u in uses && u.text.None? && d[k] == Answer(ToolResult(u.id, DANGLING, true)))
      && (forall u :: u in uses && u.text.None? ==> Answer(ToolResult(u.id, DANGLING, true)) in d)
      && (DistinctIds(uses) ==> forall k, l :: 0 <= k < l < |d| ==> d[k] != d[l])
  {
    if uses != [] {
      var n := |uses| - 1;
      DanglingAnswersAre(uses[..n]);
      var before, d := DanglingAnswers(uses[..n]), DanglingAnswers(uses);
      assert forall u :: u in uses[..n] ==> u in uses;
      forall u | u in uses && u.text.None? ensures Answer(ToolResult(u.id, DANGLING, true)) in d {
        var a :| 0 <= a < |uses| && uses[a] == u;
        if a < n {
          assert u in uses[..n];
        } else {
          assert d[|d| - 1] == Answer(ToolResult(u.id, DANGLING, true));
        }
      }
    }
  }

  lemma SettleTail(s: State, j: int) returns (u: Use)
    requires s.Valid() && s.held == [] && |s.built| <= j < |Settle(s).built|
    ensures u in s.OpenUses() && u.text.None?
    ensures Settle(s).built[j] == DanglingAnswers(s.OpenUses())[j - |s.built|]
            == Answer(ToolResult(u.id, DANGLING, true))
  {
    DanglingAnswersAre(s.OpenUses());
    assert Settle(s).built[j] == DanglingAnswers(s.OpenUses())[j - |s.built|];
    u :| u in s.OpenUses() && u.text.None? && Settle(s).built[j] == Answer(ToolResult(u.id, DANGLING, true));
  }

  /** A pending use is answered by its dangling message. */
  lemma DanglingPairs(s: State, u: Use, given: seq<ToolResult>, answered: set<string>)
    requires s.Valid() && NoLaterResponse(s) && s.held == [] && u in s.OpenUses() && u.text.None? && u.id !in answered
    ensures Paired(Settle(s).built, s.open.value, Dangled(u), given, answered)
  {
    var uses, t, n := s.OpenUses(), Settle(s), |s.built|;
    var d := DanglingAnswers(uses);
    assert t.built == SetOpenUses(s, DangledUses(uses)).built + d;
    DanglingAnswersAre(uses);
    var k :| 0 <= k < |d| && d[k] == Answer(ToolResult(u.id, DANGLING, true));
    assert t.built[n + k] == d[k];
    assert forall j :: n <= j < n + k ==> t.built[j] == d[j - n];
    assert Pair(t.built, s.open.value, n + k, Dangled(u), given, answered);
  }

  lemma SettleUsesSettled(s: State, seen: Content, answered: set<string>)
    requires Inv(s, seen, answered) && !Waits(s.OpenUses(), answered)
    ensures UsesSettled(Settle(s), seen, answered)
  {
    var uses, t := s.OpenUses(), Settle(s);
    forall i, u | 0 <= i < |t.built| && t.built[i].Assistant? && u in t.built[i].uses
      ensures Paired(t.built, i, u, seen.answers, answered)
    {
      if |s.built| <= i {
        var v := SettleTail(s, i);
        assert false;
      }
      if s.open == Some(i) {
        var a :| 0 <= a < |uses| && Dangled(uses[a]) == u;
        assert uses[a] in s.built[i].uses;
        if uses[a].text.None? {
          DanglingPairs(s, uses[a], seen.answers, answered);
        } else {
          PairedGrows(s.built, t.built, i, u, seen.answers, seen.answers, answered);
        }
      } else {
        PairedGrows(s.built, t.built, i, u, seen.answers, seen.answers, answered);
      }
    }
  }

  lemma SettleAnswersKnown(s: State, seen: Content, answered: set<string>)
    requires Inv(s, seen, answered) && CallsSeen(s, seen) && !Waits(s.OpenUses(), answered)
    ensures AnswersKnown(Settle(s), seen, answered)
  {
    var t, n := Settle(s), |s.built|;
    forall j | n <= j < |t.built|
      ensures t.built[j].Answer? && t.built[j].result.id !in answered && HasCall(seen, t.built[j].result.id)
      ensures forall k :: 0 <= k < n ==> !SameAnswerId(s.built[k], t.built[j])
    {
      var u := SettleTail(s, j);
      assert u in s.built[s.open.value].uses;
    }
    forall j, k | n <= j < k < |t.built| ensures !SameAnswerId(t.built[j], t.built[k]) {
      var u := SettleTail(s, j);
      var v := SettleTail(s, k);
      DanglingAnswersAre(s.OpenUses());
    }
    assert forall k :: 0 <= k < n && t.built[k].Answer? ==> t.built[k] == s.built[k];
    assert forall k :: 0 <= k < n && s.built[k].Answer? ==> t.built[k] == s.built[k];
  }

  lemma SettleInv(s: State, seen: Content, answered: set<string>)
    requires Inv(s, seen, answered) && CallsSeen(s, seen) && !Waits(s.OpenUses(), answered)
    ensures Inv(Settle(s), seen, answered) && Settle(s).open.None? && Settle(s).held == []
  {
    SettleUsesSettled(s, seen, answered);
    SettleAnswersKnown(s, seen, answered);
  }

  /** The state after a result is taken, before held notes are released. */
  function Told(s: State, r: ToolResult): (t: State)
    requires s.Valid()
    ensures t.Valid()
  {
    var told := SetOpenUses(s, AnswerUse(s.OpenUses(), r));
    assert told.open.Some? ==> told.built[told.open.value].Assistant?;
    told.(built := told.built + [Answer(r)])
  }

  lemma ToldUses(s: State, r: ToolResult, answered: set<string>)
    requires s.Valid() && DistinctIds(s.OpenUses())
    ensures Told(s, r).OpenUses() == AnswerUse(s.OpenUses(), r)
    ensures DistinctIds(Told(s, r).OpenUses())
    ensures forall u :: u in Told(s, r).OpenUses() ==>
              (u in s.OpenUses() && u.id != r.id)
              || exists v :: v in s.OpenUses() && v.id == r.id
                  && u == v.(text := Some(r.text), isError := v.isError || r.isError)
    ensures Waits(Told(s, r).OpenUses(), answered) ==> Waits(s.OpenUses(), answered)
  {
    var uses, after := s.OpenUses(), AnswerUse(s.OpenUses(), r);
    AnswerUseKeepsCalls(uses, r);
    forall u | u in after
      ensures (u in uses && u.id != r.id)
              || exists v :: v in uses && v.id == r.id
                  && u == v.(text := Some(r.text), isError := v.isError || r.isError)
    {
      var a :| 0 <= a < |after| && after[a] == u;
      AnswerUseAt(uses, r, a);
      assert uses[a] in uses;
    }
  }

  /** A result just taken answers the pending use it names: nothing but results stands between. */
  lemma ResultPairs(s: State, r: ToolResult, u: Use, given: seq<ToolResult>, seen: Content, answered: set<string>)
    requires Inv(s, seen, answered) && CallsSeen(s, seen) && r.id in answered && r in given
    requires HasCall(seen, r.id) ==> !HasAnswer(seen, r.id)
    requires u in s.OpenUses() && u.id == r.id
    ensures Paired(Told(s, r).built, s.open.value, u.(text := Some(r.text), isError := u.isError || r.isError),
                   given, answered)
  {
    var o := s.open.value;
    assert u in s.built[o].uses && HasCall(seen, r.id);
    assert u.text.None? && Pending(s, o, u);
    assert Waits(s.OpenUses(), answered);
    assert Pair(Told(s, r).built, o, |s.built|, u.(text := Some(r.text), isError := u.isError || r.isError),
                given, answered);
  }

  lemma ToldUsesSettled(s: State, r: ToolResult, seen: Content, answered: set<string>)
    requires Inv(s, seen, answered) && CallsSeen(s, seen) && r.id in answered
    requires HasCall(seen, r.id) ==> !HasAnswer(seen, r.id)
    ensures UsesSettled(Told(s, r), seen.Plus(Content([], "", [], [r])), answered)
  {
    var t := Told(s, r);
    var given := seen.answers + [r];
    assert given[|seen.answers|] == r;
    ToldUses(s, r, answered);
    forall i, u | 0 <= i < |t.built| && t.built[i].Assistant? && u in t.built[i].uses
      ensures Pending(t, i, u) || Paired(t.built, i, u, given, answered)
    {
      if u in s.built[i].uses {
        if !Pending(s, i, u) {
          PairedGrows(s.built, t.built, i, u, seen.answers, given, answered);
        }
      } else {
        assert s.open == Some(i) && t.built[i].uses == t.OpenUses();
        var v :| v in s.OpenUses() && v.id == r.id && u == v.(text := Some(r.text), isError := v.isError || r.isError);
        ResultPairs(s, r, v, given, seen, answered);
      }
    }
  }

  lemma MoreAnswers(seen: Content, r: ToolResult, id: string)
    ensures HasAnswer(seen.Plus(Content([], "", [], [r])), id) <==> HasAnswer(seen, id) || id == r.id
  {
    var all := seen.answers + [r];
    if HasAnswer(seen, id) {
      var k :| 0 <= k < |seen.answers| && seen.answers[k].id == id;
      assert all[k].id == id;
    }
    assert all[|seen.answers|] == r;
  }

  lemma ToldAnswersKnown(s: State, r: ToolResult, seen: Content, seen': Content, answered: set<string>)
    requires s.Valid() && AnswersKnown(s, seen, answered)
    requires HasCall(seen, r.id) ==> !HasAnswer(seen, r.id)
    requires r.id in answered && seen'.calls == seen.calls
    requires forall id :: HasAnswer(seen', id) <==> HasAnswer(seen, id) || id == r.id
    ensures AnswersKnown(Told(s, r), seen', answered)
  {
    var t, n := Told(s, r), |s.built|;
    assert forall id :: HasCall(seen', id) <==> HasCall(seen, id);
    assert t.built[n] == Answer(r);
    assert forall k :: 0 <= k < n && t.built[k].Answer? ==> t.built[k] == s.built[k];
    assert forall k :: 0 <= k < n && SameAnswerId(t.built[k], t.built[n]) ==> !HasCall(seen, r.id);
  }

  lemma ToldPending(s: State, r: ToolResult, seen: Content, seen': Content, answered: set<string>)
    requires s.Valid() && DistinctIds(s.OpenUses()) && PendingUnanswered(s, seen)
    requires forall id :: HasAnswer(seen', id) <==> HasAnswer(seen, id) || id == r.id
    ensures PendingUnanswered(Told(s, r), seen')
  {
    var t, n := Told(s, r), |s.built|;
    ToldUses(s, r, answered);
    assert t.built[n] == Answer(r);
    assert forall k :: 0 <= k < n && t.built[k].Answer? ==> t.built[k] == s.built[k];
  }

  lemma ReleaseInv(s: State, seen: Content, answered: set<string>)
    requires s.Valid() && NoLaterResponse(s) && DistinctIds(s.OpenUses()) && !Waits(s.OpenUses(), answered)
    requires UsesSettled(s, seen, answered) && AnswersKnown(s, seen, answered) && PendingUnanswered(s, seen)
    ensures Inv(ReleaseHeld(s), seen, answered)
  {
    var t := ReleaseHeld(s);
    forall i, u | 0 <= i < |t.built| && t.built[i].Assistant? && u in t.built[i].uses
      ensures Pending(t, i, u) || Paired(t.built, i, u, seen.answers, answered)
    {
      assert t.built[i] == s.built[i];
      if !Pending(s, i, u) {
        PairedGrows(s.built, t.built, i, u, seen.answers, seen.answers, answered);
      }
    }
    assert forall k :: 0 <= k < |t.built| && t.built[k].Answer? ==> k < |s.built| && t.built[k] == s.built[k];
    assert t.OpenUses() == s.OpenUses();
  }

  lemma ResultInv(s: State, r: ToolResult, seen: Content, answered: set<string>)
    requires Inv(s, seen, answered) && CallsSeen(s, seen) && r.id in answered
    requires HasCall(seen, r.id) ==> !HasAnswer(seen, r.id)
    ensures Inv(TakeResult(s, r, answered), seen.Plus(Content([], "", [], [r])), answered)
  {
    var t, seen' := Told(s, r), seen.Plus(Content([], "", [], [r]));
    forall id ensures HasAnswer(seen', id) <==> HasAnswer(seen, id) || id == r.id {
      MoreAnswers(seen, r, id);
    }
    assert seen'.calls == seen.calls + [] == seen.calls;
    ToldUses(s, r, answered);
    ToldUsesSettled(s, r, seen, answered);
    ToldAnswersKnown(s, r, seen, seen', answered);
    ToldPending(s, r, seen, seen', answered);
    if !Waits(t.OpenUses(), answered) {
      ReleaseInv(t, seen', answered);
    }
  }

  /** Adding a user text or a response once everything is settled. */
  lemma AppendInv(s: State, m: Msg, open: Option<nat>, seen: Content, seen': Content, answered: set<string>)
    requires Inv(s, seen, answered) && s.open.None? && s.held == []
    requires seen'.answers == seen.answers
    requires forall id :: HasCall(seen, id) ==> HasCall(seen', id)
    requires m.UserText? || m.Assistant?
    requires m.UserText? ==> open.None? && seen'.calls == seen.calls
    requires m.Assistant? ==>
      && open == Some(|s.built|) && DistinctIds(m.uses)
      && (forall id :: HasCall(seen', id) ==> HasCall(seen, id) || exists u :: u in m.uses && u.id == id)
      && forall u :: u in m.uses ==> u.text.None? && !u.isError && !HasCall(seen, u.id) && !HasAnswer(seen, u.id)
    ensures Inv(State(s.built + [m], open, []), seen', answered)
  {
    var t := State(s.built + [m], open, []);
    forall i, u | 0 <= i < |t.built| && t.built[i].Assistant? && u in t.built[i].uses
      ensures Pending(t, i, u) || Paired(t.built, i, u, seen'.answers, answered)
    {
      if i < |s.built| {
        PairedGrows(s.built, t.built, i, u, seen.answers, seen'.answers, answered);
      }
    }
    assert forall id :: HasAnswer(seen', id) <==> HasAnswer(seen, id);
    assert forall k :: 0 <= k < |t.built| && t.built[k].Answer? ==> k < |s.built| && t.built[k] == s.built[k];
  }

  function Merge(s: State, text: string, uses: seq<Use>): State
    requires s.Valid() && s.open.Some?
  {
    var m := s.built[s.open.value];
    s.(built := s.built[s.open.value := Assistant(JoinLines(m.text, text), m.uses + uses)])
  }

  lemma MergeUsesSettled(s: State, text: string, uses: seq<Use>, seen: Content, answered: set<string>)
    requires s.Valid() && s.open.Some? && UsesSettled(s, seen, answered)
    requires forall u :: u in uses ==> u.text.None? && !u.isError
    ensures UsesSettled(Merge(s, text, uses), seen, answered)
  {
    var t := Merge(s, text, uses);
    forall i, u | 0 <= i < |t.built| && t.built[i].Assistant? && u in t.built[i].uses
      ensures Pending(t, i, u) || Paired(t.built, i, u, seen.answers, answered)
    {
      if u in s.built[i].uses {
        if !Pending(s, i, u) {
          PairedGrows(s.built, t.built, i, u, seen.answers, seen.answers, answered);
        }
      }
    }
  }

  lemma MergeAnswersKnown(s: State, text: string, uses: seq<Use>, seen: Content, seen': Content, answered: set<string>)
    requires s.Valid() && s.open.Some? && AnswersKnown(s, seen, answered)
    requires seen'.answers == seen.answers
    requires forall u :: u in uses ==> !HasCall(seen, u.id) && !HasAnswer(seen, u.id)
    requires forall id :: HasCall(seen', id) <==> HasCall(seen, id) || exists u :: u in uses && u.id == id
    ensures AnswersKnown(Merge(s, text, uses), seen', answered)
    ensures forall j, u :: 0 <= j < |s.built| && s.built[j].Answer? && u in uses ==> s.built[j].result.id != u.id
  {
    var t := Merge(s, text, uses);
    forall id ensures HasAnswer(seen', id) <==> HasAnswer(seen, id) {}
    assert forall k :: 0 <= k < |t.built| && t.built[k].Answer? ==> t.built[k] == s.built[k];
  }

  lemma MergeInv(s: State, text: string, uses: seq<Use>, seen: Content, seen': Content, answered: set<string>)
    requires Inv(s, seen, answered) && CallsSeen(s, seen) && Waits(s.OpenUses(), answered)
    requires seen'.answers == seen.answers && DistinctIds(uses)
    requires forall u :: u in uses ==> u.text.None? && !u.isError && !HasCall(seen, u.id) && !HasAnswer(seen, u.id)
    requires forall id :: HasCall(seen', id) <==> HasCall(seen, id) || exists u :: u in uses && u.id == id
    ensures Inv(Merge(s, text, uses), seen', answered)
  {
    var t := Merge(s, text, uses);
    var prior := s.OpenUses();
    MergeUsesSettled(s, text, uses, seen, answered);
    assert t.OpenUses() == prior + uses;
    forall u | u in prior ensures HasCall(seen, u.id) {
      assert u in s.built[s.open.value].uses;
    }
    forall id ensures HasAnswer(seen', id) <==> HasAnswer(seen, id) {}
    assert UsesSettled(t, seen', answered) by {
      assert forall i, u :: Paired(t.built, i, u, seen.answers, answered) ==>
               Paired(t.built, i, u, seen'.answers, answered);
    }
    assert forall k :: 0 <= k < |t.built| && t.built[k].Answer? ==> t.built[k] == s.built[k];
    assert DistinctIds(t.OpenUses()) by {
      forall a, b | 0 <= a < b < |prior + uses| ensures (prior + uses)[a].id != (prior + uses)[b].id {
        if a < |prior| <= b {
          assert prior[a] in prior && uses[b - |prior|] in uses;
        }
      }
    }
    MergeAnswersKnown(s, text, uses, seen, seen', answered);
    assert Waits(t.OpenUses(), answered) by {
      var w :| w in prior && w.text.None? && w.id in answered;
      assert w in t.OpenUses();
    }
  }

  lemma NewCalls(seen: Content, uses: seq<Use>, text: string, id: string)
    ensures HasCall(seen.Plus(Content(CallsOf(uses), text, [], [])), id)
            <==> HasCall(seen, id) || exists u :: u in uses && u.id == id
  {
    var all := seen.calls + CallsOf(uses);
    if k :| 0 <= k < |all| && all[k].id == id {
      if k < |seen.calls| {
        assert seen.calls[k].id == id;
      } else {
        assert uses[k - |seen.calls|] in uses;
      }
    }
    if HasCall(seen, id) {
      var k :| 0 <= k < |seen.calls| && seen.calls[k].id == id;
      assert all[k].id == id;
    }
    if u :| u in uses && u.id == id {
      var a :| 0 <= a < |uses| && uses[a] == u;
      assert all[|seen.calls| + a].id == id;
    }
  }

  lemma UserHeldInv(s: State, text: string, seen: Content, seen': Content, answered: set<string>)
    requires Inv(s, seen, answered) && Waits(s.OpenUses(), answered)
    requires seen'.calls == seen.calls && seen'.answers == seen.answers
    ensures Inv(s.(held := s.held + [text]), seen', answered)
  {
    var t := s.(held := s.held + [text]);
    assert t.OpenUses() == s.OpenUses();
    assert forall i, u :: Pending(s, i, u) ==> Pending(t, i, u);
  }

  lemma StepInv(s: State, e: Entry, seen: Content, answered: set<string>)
    requires Inv(s, seen, answered) && Accounts(s, seen, answered, true) && Admissible(seen, e)
    requires e.ResultEntry? ==> e.callId in answered
    ensures Inv(Step(s, e, answered), seen.Plus(EntryContent(e)), answered)
  {
    AccountsSeesCalls(s, seen, answered);
    PlusAssociative(seen, NOTHING, NOTHING);
    var seen' := seen.Plus(EntryContent(e));
    match e
    case Bare =>
    case ResultEntry(_, _, _, _, _) =>
      ResultInv(s, ResultOf(e), seen, answered);
    case UserEntry(content, kinds, id) =>
      var text := WithPlaceholders(content, kinds, id);
      if text != "" {
        assert seen'.calls == seen.calls && seen'.answers == seen.answers;
        if Waits(s.OpenUses(), answered) {
          UserHeldInv(s, text, seen, seen', answered);
        } else {
          SettleInv(s, seen, answered);
          AppendInv(Settle(s), UserText(text), None, seen, seen', answered);
        }
      }
    case AssistantEntry(parts) =>
      var text, uses := PartsText(parts), PartsUses(parts);
      if text != "" || uses != [] {
        forall id ensures HasCall(seen', id) <==> HasCall(seen, id) || exists u :: u in uses && u.id == id {
          NewCalls(seen, uses, text, id);
        }
        if Waits(s.OpenUses(), answered) {
          MergeInv(s, text, uses, seen, seen', answered);
        } else {
          SettleInv(s, seen, answered);
          assert seen'.answers == seen.answers;
          AppendInv(Settle(s), Assistant(text, uses), Some(|Settle(s).built|), seen, seen', answered);
        }
      }
  }

  lemma {:induction false} RunInv(view: seq<Entry>, answered: set<string>)
    requires WellFormed(view) && AnsweredIds(view) <= answered
    ensures Inv(Run(view, answered), ViewContent(view), answered)
  {
    if view != [] {
      var front, e := view[..|view| - 1], view[|view| - 1];
      assert AnsweredIds(front) <= AnsweredIds(view);
      RunInv(front, answered);
      RunAccounts(front, answered);
      assert e in view;
      StepInv(Run(front, answered), e, ViewContent(front), answered);
    }
  }

  lemma {:induction false} AnsweredAreSeen(view: seq<Entry>, id: string)
    requires id in AnsweredIds(view)
    ensures HasAnswer(ViewContent(view), id)
  {
    var n := |view| - 1;
    var e :| e in view && e.ResultEntry? && e.callId == id;
    var before := ViewContent(view[..n]);
    if view[n] == e {
      assert ViewContent(view).answers[|before.answers|].id == id;
    } else {
      assert e in view[..n];
      AnsweredAreSeen(view[..n], id);
      var k :| 0 <= k < |before.answers| && before.answers[k].id == id;
      assert ViewContent(view).answers[k] == before.answers[k];
    }
  }

  lemma NothingWaitsAtTheEnd(view: seq<Entry>)
    requires WellFormed(view)
    ensures !Waits(Run(view, AnsweredIds(view)).OpenUses(), AnsweredIds(view))
  {
    var answered := AnsweredIds(view);
    RunInv(view, answered);
    if u :| u in Run(view, answered).OpenUses() && u.text.None? && u.id in answered {
      AnsweredAreSeen(view, u.id);
    }
  }

  // ----- What the view holds, from its fields alone -----

  /** The kind stands here for the first time, and is not text. */
  predicate IsNewKind(kinds: seq<string>, i: nat)
    requires i < |kinds|
  {
    kinds[i] != "text" && forall j :: 0 <= j < i ==> kinds[j] != kinds[i]
  }

  /** One line for each kind of block that is left out, in order of first appearance. */
  function KindLines(kinds: seq<string>, from: nat, messageId: string): seq<string>
    requires from <= |kinds|
    decreases |kinds| - from
  {
    if from == |kinds| then []
    else
      (if IsNewKind(kinds, from) then ["[" + kinds[from] + " omitted by LHC: " + messageId + "]"] else [])
      + KindLines(kinds, from + 1, messageId)
  }

  /** An entry's text: its content, if it has any, and a line for each kind left out. */
  function TextHeld(content: string, kinds: seq<string>, messageId: string): string {
    PlainText.Join((if content == "" then [] else [content]) + KindLines(kinds, 0, messageId))
  }

  /** What the items give, one after the other. */
  function Gathered<S, T>(items: seq<S>, give: S -> seq<T>): seq<T> {
    if items == [] then [] else give(items[0]) + Gathered(items[1..], give)
  }

  function PieceOf(part: Part): seq<string> {
    if part.TextPart? && part.text != "" then [part.text] else []
  }

  function CallIn(part: Part): seq<Call> {
    match part
    case CallPart(callId, toolName, arguments) =>
      [Call(if callId.Some? then callId.value else "", if toolName.Some? then toolName.value else "unknown_tool",
            arguments)]
    case _ => []
  }

  function PiecesIn(e: Entry): seq<string> {
    if e.AssistantEntry? then Gathered(e.parts, PieceOf) else []
  }

  function CallsIn(e: Entry): seq<Call> {
    if e.AssistantEntry? then Gathered(e.parts, CallIn) else []
  }

  function NoteIn(e: Entry): seq<string> {
    if e.UserEntry? && TextHeld(e.content, e.kinds, e.messageId) != "" then [TextHeld(e.content, e.kinds, e.messageId)]
    else []
  }

  function ResultIn(e: Entry): seq<ToolResult> {
    match e
    case ResultEntry(callId, content, kinds, id, isError) =>
      var text := TextHeld(content, kinds, id);
      [ToolResult(callId, if text == "" then "[empty tool result: " + id + "]" else text, isError)]
    case _ => []
  }

  /** What a view holds: calls, response text piece by piece, user texts and results, each in view order. */
  function Held(view: seq<Entry>): Content {
    Content(Gathered(view, CallsIn), PlainText.Join(Gathered(view, PiecesIn)), Gathered(view, NoteIn),
            Gathered(view, ResultIn))
  }

  // ----- The pass reads an entry as what it holds -----

  ghost predicate NoneEmpty(lines: seq<string>) {
    forall l <- lines :: l != ""
  }

  lemma {:induction false} JoinOfNonEmpty(lines: seq<string>)
    requires NoneEmpty(lines)
    ensures PlainText.Join(lines) == "" <==> lines == []
    decreases lines
  {
    if |lines| == 1 {
      assert lines[0] in lines;
    }
  }

  /** Lines with one between two joined texts. */
  lemma {:induction false} JoinConcat(a: seq<string>, b: seq<string>)
    requires NoneEmpty(a) && NoneEmpty(b)
    ensures PlainText.Join(a + b) == JoinLines(PlainText.Join(a), PlainText.Join(b))
    decreases a
  {
    JoinOfNonEmpty(b);
    if a == [] {
      assert a + b == b;
    } else if b == [] {
      assert a + b == a;
    } else {
      assert a[0] in a && (a + b)[0] == a[0] && (a + b)[1..] == a[1..] + b;
      assert forall l <- a[1..] :: l in a;
      JoinConcat(a[1..], b);
      JoinOfNonEmpty(a);
      JoinOfNonEmpty(a[1..]);
      JoinLinesAssociative(a[0], PlainText.Join(a[1..]), PlainText.Join(b));
    }
  }

  function NoteLine(kind: string, messageId: string): string {
    "[" + kind + " omitted by LHC: " + messageId + "]"
  }

  function NoteLines(kinds: seq<string>, messageId: string): seq<string> {
    seq(|kinds|, i requires 0 <= i < |kinds| => NoteLine(kinds[i], messageId))
  }

  lemma {:induction false} OmittedAre(kinds: seq<string>)
    ensures forall k :: k in OmittedKinds(kinds) <==> k in kinds && k != "text"
  {
    if kinds != [] {
      OmittedAre(kinds[..|kinds| - 1]);
      assert kinds == kinds[..|kinds| - 1] + [kinds[|kinds| - 1]];
    }
  }

  /** Kind by kind from the end, and kind by kind from the front, the lines are the same. */
  lemma {:induction false} KindLinesUpTo(kinds: seq<string>, n: nat, messageId: string)
    requires n <= |kinds|
    ensures NoteLines(OmittedKinds(kinds[..n]), messageId) + KindLines(kinds, n, messageId)
            == KindLines(kinds, 0, messageId)
  {
    if n > 0 {
      var front := kinds[..n - 1];
      KindLinesUpTo(kinds, n - 1, messageId);
      OmittedAre(front);
      assert kinds[..n][..n - 1] == front;
      assert kinds[n - 1] in front <==> exists j :: 0 <= j < n - 1 && kinds[j] == kinds[n - 1];
      assert IsNewKind(kinds, n - 1) <==> kinds[n - 1] != "text" && kinds[n - 1] !in OmittedKinds(front);
      var line := if IsNewKind(kinds, n - 1) then [NoteLine(kinds[n - 1], messageId)] else [];
      assert NoteLines(OmittedKinds(kinds[..n]), messageId) == NoteLines(OmittedKinds(front), messageId) + line;
      ConcatAssociative(NoteLines(OmittedKinds(front), messageId), line, KindLines(kinds, n, messageId));
    }
  }

  lemma {:induction false} JoinNotesIs(text: string, kinds: seq<string>, messageId: string)
    ensures JoinNotes(text, kinds, messageId)
            == PlainText.Join((if text == "" then [] else [text]) + NoteLines(kinds, messageId))
  {
    var first := if text == "" then [] else [text];
    if kinds == [] {
      assert first + NoteLines([], messageId) == first;
    } else {
      var front, last := kinds[..|kinds| - 1], [NoteLine(kinds[|kinds| - 1], messageId)];
      JoinNotesIs(text, front, messageId);
      assert NoteLines(kinds, messageId) == NoteLines(front, messageId) + last;
      ConcatAssociative(first, NoteLines(front, messageId), last);
      JoinConcat(first + NoteLines(front, messageId), last);
    }
  }

  lemma TextIsHeld(content: string, kinds: seq<string>, messageId: string)
    ensures WithPlaceholders(content, kinds, messageId) == TextHeld(content, kinds, messageId)
  {
    KindLinesUpTo(kinds, |kinds|, messageId);
    assert kinds[..|kinds|] == kinds;
    assert NoteLines(OmittedKinds(kinds), messageId) == KindLines(kinds, 0, messageId);
    JoinNotesIs(content, OmittedKinds(kinds), messageId);
  }

  lemma {:induction false} GatheredConcat<S, T>(a: seq<S>, b: seq<S>, give: S -> seq<T>)
    ensures Gathered(a + b, give) == Gathered(a, give) + Gathered(b, give)
    decreases a
  {
    if a == [] {
      assert a + b == b;
    } else {
      assert (a + b)[0] == a[0] && (a + b)[1..] == a[1..] + b;
      GatheredConcat(a[1..], b, give);
      ConcatAssociative(give(a[0]), Gathered(a[1..], give), Gathered(b, give));
    }
  }

  lemma GatheredOne<S, T>(item: S, give: S -> seq<T>)
    ensures Gathered([item], give) == give(item)
  {
    assert [item][1..] == [];
  }

  /** All but the last item, and the last. */
  lemma GatheredLast<S, T>(items: seq<S>, give: S -> seq<T>)
    requires items != []
    ensures Gathered(items, give) == Gathered(items[..|items| - 1], give) + give(items[|items| - 1])
  {
    assert items == items[..|items| - 1] + [items[|items| - 1]];
    GatheredConcat(items[..|items| - 1], [items[|items| - 1]], give);
    GatheredOne(items[|items| - 1], give);
  }

  lemma {:induction false} GatheredNoneEmpty<S>(items: seq<S>, give: S -> seq<string>)
    requires forall item <- items :: NoneEmpty(give(item))
    ensures NoneEmpty(Gathered(items, give))
  {
    if items != [] {
      FirstIsIn(items);
      GatheredNoneEmpty(items[1..], give);
    }
  }

  lemma PiecesNoneEmpty(view: seq<Entry>)
    ensures NoneEmpty(Gathered(view, PiecesIn))
  {
    forall e <- view ensures NoneEmpty(PiecesIn(e)) {
      if e.AssistantEntry? {
        GatheredNoneEmpty(e.parts, PieceOf);
      }
    }
    GatheredNoneEmpty(view, PiecesIn);
  }

  lemma {:induction false} TextOfPartsIsHeld(parts: seq<Part>)
    ensures PartsText(parts) == PlainText.Join(Gathered(parts, PieceOf))
  {
    if parts != [] {
      var front, part := parts[..|parts| - 1], parts[|parts| - 1];
      TextOfPartsIsHeld(front);
      GatheredLast(parts, PieceOf);
      GatheredNoneEmpty(front, PieceOf);
      JoinConcat(Gathered(front, PieceOf), PieceOf(part));
    }
  }

  lemma {:induction false} CallsOfPartsAreHeld(parts: seq<Part>)
    ensures CallsOf(PartsUses(parts)) == Gathered(parts, CallIn)
  {
    if parts != [] {
      var front, part := parts[..|parts| - 1], parts[|parts| - 1];
      CallsOfPartsAreHeld(front);
      GatheredLast(parts, CallIn);
      if part.CallPart? {
        assert CallsOf(PartsUses(front) + [UseOf(part)]) == CallsOf(PartsUses(front)) + CallIn(part);
      }
    }
  }

  lemma EntryIsHeld(e: Entry)
    ensures EntryContent(e) == Content(CallsIn(e), PlainText.Join(PiecesIn(e)), NoteIn(e), ResultIn(e))
  {
    match e
    case Bare =>
    case UserEntry(content, kinds, id) => TextIsHeld(content, kinds, id);
    case ResultEntry(_, content, kinds, id, _) => TextIsHeld(content, kinds, id);
    case AssistantEntry(parts) =>
      TextOfPartsIsHeld(parts);
      CallsOfPartsAreHeld(parts);
  }

  lemma {:induction false} ViewIsHeld(view: seq<Entry>)
    ensures ViewContent(view) == Held(view)
  {
    if view != [] {
      var front, last := view[..|view| - 1], view[|view| - 1];
      ViewIsHeld(front);
      EntryIsHeld(last);
      GatheredLast(view, CallsIn);
      GatheredLast(view, PiecesIn);
      GatheredLast(view, NoteIn);
      GatheredLast(view, ResultIn);
      PiecesNoneEmpty(front);
      PiecesNoneEmpty([last]);
      GatheredOne(last, PiecesIn);
      JoinConcat(Gathered(front, PiecesIn), PiecesIn(last));
    }
  }

  // ----- Main results -----

  /**
   No content is lost, repeated, invented or reordered within its kind: user texts,
   response text and tool calls for every view, and real results too when the view is well
   formed.
   */
  lemma ProjectionKeepsContent(view: seq<Entry>)
    ensures var c := BuiltContent(Project(view), AnsweredIds(view));
      && c.(answers := []) == Held(view).(answers := [])
      && (WellFormed(view) ==> c == Held(view))
  {
    var answered := AnsweredIds(view);
    var s := Run(view, answered);
    ViewIsHeld(view);
    RunAccounts(view, answered);
    if WellFormed(view) {
      NothingWaitsAtTheEnd(view);
      SettleAccounts(s, ViewContent(view), answered, true);
    }
    SettleAccounts(s, ViewContent(view), answered, false);
    PlusAssociative(BuiltContent(Project(view), answered), NOTHING, NOTHING);
  }

  /**
   Every call of a built message has exactly one result message. It is the view's own result
   exactly when the view holds one, and then it stands before the next user text; either way
   it stands before the next response.
   */
  lemma ProjectionPairsCalls(view: seq<Entry>, i: nat, u: Use)
    requires WellFormed(view)
    requires i < |Project(view)| && Project(view)[i].Assistant? && u in Project(view)[i].uses
    ensures exists j :: Pair(Project(view), i, j, u, Held(view).answers, AnsweredIds(view))
              && forall k :: 0 <= k < |Project(view)| && SameAnswerId(Project(view)[k], Project(view)[j]) ==> k == j
  {
    var answered, seen := AnsweredIds(view), ViewContent(view);
    var s := Run(view, answered);
    ViewIsHeld(view);
    RunInv(view, answered);
    RunAccounts(view, answered);
    NothingWaitsAtTheEnd(view);
    AccountsSeesCalls(s, seen, answered);
    SettleInv(s, seen, answered);
    SettleAccounts(s, seen, answered, true);
    AccountsSeesCalls(Settle(s), seen, answered);
    var j :| Pair(Project(view), i, j, u, seen.answers, answered);
    assert HasCall(seen, u.id);
  }

  // ----- The pass itself, over message objects -----

  datatype Role = UserRole | AssistantRole

  ghost function ValueOf(role: Role, text: string, toolUses: seq<Use>, toolResults: seq<ToolResult>): Msg {
    if role == AssistantRole then Assistant(text, toolUses)
    else if toolResults == [] then UserText(text)
    else Answer(toolResults[0])
  }

  class BuiltMessage {
    const role: Role
    var text: string
    var toolUses: seq<Use>
    const toolResults: seq<ToolResult>

    constructor (role: Role, text: string, toolUses: seq<Use>, toolResults: seq<ToolResult>)
      ensures this.role == role && this.text == text && this.toolUses == toolUses && this.toolResults == toolResults
    {
      this.role, this.text, this.toolUses, this.toolResults := role, text, toolUses, toolResults;
    }

    ghost function Value(): Msg
      reads this
    {
      ValueOf(role, text, toolUses, toolResults)
    }
  }

  ghost function Values(messages: seq<BuiltMessage>): (values: seq<Msg>)
    reads messages
    ensures |values| == |messages| && forall i :: 0 <= i < |messages| ==> values[i] == messages[i].Value()
  {
    if messages == [] then [] else Values(messages[..|messages| - 1]) + [messages[|messages| - 1].Value()]
  }

  ghost function PartlyDangled(uses: seq<Use>, n: nat): (r: seq<Use>)
    requires n <= |uses|
    ensures |r| == |uses| && (n < |uses| ==> PartlyDangled(uses, n + 1) == r[n := Dangled(uses[n])] && r[n] == uses[n])
    decreases |uses| - n
  {
    var r := seq(|uses|, i requires 0 <= i < |uses| => if i < n then Dangled(uses[i]) else uses[i]);
    assert n < |uses| ==> PartlyDangled(uses, n + 1) == r[n := Dangled(uses[n])];
    r
  }

  lemma SettledSoFar(start: seq<Msg>, o: nat, before: Msg, after: Msg, uses: seq<Use>, i: nat)
    requires o < |start| && i < |uses|
    ensures (start[o := before] + DanglingAnswers(uses[..i]))[o := after] + DanglingAnswers([uses[i]])
            == start[o := after] + DanglingAnswers(uses[..i + 1])
  {
    assert uses[..i + 1][..i] == uses[..i] && [uses[i]][..0] == [];
    assert DanglingAnswers(uses[..i + 1]) == DanglingAnswers(uses[..i]) + DanglingAnswers([uses[i]]);
  }

  /**
   The state of the pass. The array of open tool uses is the open message's own array, so it
   is represented by that message: growing or settling one changes the other. No message is
   open when the array is a new empty one.
   */
  class Pass {
    const answered: set<string>
    var built: seq<BuiltMessage>
    var openMessage: BuiltMessage?
    var held: seq<BuiltMessage>
    ghost var model: State

    constructor (answered: set<string>)
      ensures Valid() && model == State([], None, []) && this.answered == answered
      ensures built == [] && held == [] && openMessage == null
    {
      this.answered := answered;
      built, openMessage, held, model := [], null, [], State([], None, []);
    }

    /** The messages hold what the model holds, and no message stands at two places. */
    ghost predicate Valid()
      reads this, built, held
    {
      && model.Valid()
      && |built| == |model.built| && |held| == |model.held|
      && (forall i :: 0 <= i < |built| ==> built[i].Value() == model.built[i])
      && (forall i :: 0 <= i < |held| ==> held[i].Value() == UserText(model.held[i]))
      && (openMessage == null <==> model.open.None?)
      && (openMessage != null ==> built[model.open.value] == openMessage)
      && NoDup(built) && NoDup(held) && (forall m :: m in built ==> m !in held)
    }

    function OpenUses(): (uses: seq<Use>)
      reads this, openMessage
    {
      if openMessage == null then [] else openMessage.toolUses
    }

    predicate IsAwaiting()
      reads this, openMessage
    {
      exists u :: u in OpenUses() && u.text.None? && u.id in answered
    }

    /** Appends a new message. */
    method Push(role: Role, text: string, toolUses: seq<Use>, toolResults: seq<ToolResult>)
      returns (message: BuiltMessage)
      requires Valid()
      modifies `built, `model
      ensures Valid() && fresh(message) && built == old(built) + [message]
      ensures message.text == text && message.toolUses == toolUses
      ensures model == old(model).(built := old(model).built + [ValueOf(role, text, toolUses, toolResults)])
    {
      message := new BuiltMessage(role, text, toolUses, toolResults);
      ghost var before := built;
      built := built + [message];
      model := model.(built := model.built + [ValueOf(role, text, toolUses, toolResults)]);
    }

    /** Replaces the open message's text and uses, and so the open array. */
    method Rewrite(text: string, toolUses: seq<Use>)
      requires Valid() && openMessage != null
      modifies openMessage, `model
      ensures Valid() && openMessage.text == text && openMessage.toolUses == toolUses
      ensures model == old(model).(built := old(model).built[old(model).open.value := Assistant(text, toolUses)])
    {
      openMessage.text := text;
      openMessage.toolUses := toolUses;
      model := model.(built := model.built[model.open.value := Assistant(text, toolUses)]);
    }

    method Release()
      requires Valid()
      modifies `built, `held, `model
      ensures Valid() && model == ReleaseHeld(old(model))
      ensures built == old(built) + old(held) && held == []
    {
      NoDupConcat(built, held);
      built, held, model := built + held, [], ReleaseHeld(model);
    }

    /** Gives the i-th open use its dangling result if it has none yet. */
    method SettleUse(i: nat)
      requires Valid() && openMessage != null && i < |openMessage.toolUses|
      modifies `built, openMessage, `model
      ensures Valid() && openMessage.text == old(openMessage.text)
      ensures openMessage.toolUses == old(openMessage.toolUses)[i := Dangled(old(openMessage.toolUses)[i])]
      ensures var open := Assistant(openMessage.text, openMessage.toolUses);
              model == old(model).(built := old(model).built[old(model).open.value := open]
                                            + DanglingAnswers([old(openMessage.toolUses)[i]]))
      ensures old(built) <= built && fresh(set m | m in built[|old(built)|..])
    {
      var use := openMessage.toolUses[i];
      assert [use][..0] == [];
      if use.text.None? {
        Rewrite(openMessage.text, openMessage.toolUses[i := use.(text := Some(DANGLING), isError := true)]);
        var message := Push(UserRole, "", [], [ToolResult(use.id, DANGLING, true)]);
      }
    }

    method SettleUses()
      requires Valid() && openMessage != null
      modifies `built, openMessage, `model
      ensures Valid()
      ensures model == old(model).(built := SetOpenUses(old(model), DangledUses(old(model).OpenUses())).built
                                            + DanglingAnswers(old(model).OpenUses()))
      ensures old(built) <= built && fresh(set m | m in built[|old(built)|..])
    {
      ghost var s, o, uses := model, model.open.value, openMessage.toolUses;
      assert s.built[o := Assistant(openMessage.text, uses)] + [] == s.built;
      var i := 0;
      while i < |openMessage.toolUses|
        invariant Valid() && openMessage.text == old(openMessage.text)
        invariant i <= |uses| && openMessage.toolUses == PartlyDangled(uses, i)
        invariant var open := Assistant(openMessage.text, openMessage.toolUses);
                  model == s.(built := s.built[o := open] + DanglingAnswers(uses[..i]))
        invariant old(built) <= built && fresh(set m | m in built[|old(built)|..])
      {
        SettledSoFar(s.built, o, Assistant(openMessage.text, openMessage.toolUses),
                     Assistant(openMessage.text, PartlyDangled(uses, i + 1)), uses, i);
        SettleUse(i);
        i := i + 1;
      }
      assert PartlyDangled(uses, i) == DangledUses(uses) && uses[..i] == uses;
    }

    method SettleOpen()
      requires Valid()
      modifies this, openMessage
      ensures Valid() && model == Settle(old(model)) && held == [] && openMessage == null
      ensures old(built) <= built && fresh(set m | m in built[|old(built)|..] && m !in old(held))
    {
      if openMessage != null {
        SettleUses();
      }
      openMessage := null;
      model := model.(open := None);
      Release();
    }

    method FindUse(id: string) returns (i: nat)
      requires openMessage != null
      ensures i <= |openMessage.toolUses| && (i < |openMessage.toolUses| ==> openMessage.toolUses[i].id == id)
      ensures forall k :: 0 <= k < i ==> openMessage.toolUses[k].id != id
    {
      i := 0;
      while i < |openMessage.toolUses| && openMessage.toolUses[i].id != id
        invariant i <= |openMessage.toolUses|
        invariant forall k :: 0 <= k < i ==> openMessage.toolUses[k].id != id
      {
        i := i + 1;
      }
    }

    /** The open use a result names takes its text. */
    method Tell(r: ToolResult)
      requires Valid()
      modifies openMessage, `model
      ensures Valid() && model == SetOpenUses(old(model), AnswerUse(old(model).OpenUses(), r))
    {
      if openMessage == null {
        return;
      }
      var i := FindUse(r.id);
      AnswerUseFirst(openMessage.toolUses, r, i);
      if i < |openMessage.toolUses| {
        var use := openMessage.toolUses[i];
        Rewrite(openMessage.text,
                openMessage.toolUses[i := use.(text := Some(r.text),
                                               isError := if r.isError then true else use.isError)]);
      } else {
        assert model.built[model.open.value := model.built[model.open.value].(uses := openMessage.toolUses)]
               == model.built;
      }
    }

    method Result(r: ToolResult)
      requires Valid()
      modifies this, openMessage
      ensures Valid() && model == TakeResult(old(model), r, answered)
      ensures openMessage == old(openMessage) && held <= old(held)
      ensures old(built) <= built && fresh(set m | m in built[|old(built)|..] && m !in old(held))
    {
      Tell(r);
      var message := Push(UserRole, "", [], [r]);
      if !IsAwaiting() {
        Release();
      }
    }

    method User(text: string)
      requires Valid()
      modifies this, openMessage
      ensures Valid() && model == TakeUser(old(model), text, answered)
      ensures openMessage == null || openMessage == old(openMessage)
      ensures old(built) <= built && fresh(set m | m in built[|old(built)|..] && m !in old(held))
      ensures fresh(set m | m in held && m !in old(held))
    {
      if text == "" {
        return;
      }
      if IsAwaiting() {
        var note := new BuiltMessage(UserRole, text, [], []);
        held := held + [note];
        model := model.(held := model.held + [text]);
        return;
      }
      SettleOpen();
      var message := Push(UserRole, text, [], []);
    }

    method Response(text: string, toolUses: seq<Use>)
      requires Valid()
      modifies this, openMessage
      ensures Valid() && model == TakeAssistant(old(model), text, toolUses, answered)
      ensures openMessage == old(openMessage) || (openMessage != null && fresh(openMessage))
      ensures old(built) <= built && fresh(set m | m in built[|old(built)|..] && m !in old(held))
      ensures fresh(set m | m in held && m !in old(held))
    {
      if text == "" && toolUses == [] {
        return;
      }
      if openMessage != null && IsAwaiting() {
        Rewrite(JoinLines(openMessage.text, text), openMessage.toolUses + toolUses);
        return;
      }
      SettleOpen();
      model := model.(open := None);
      var at := |built|;
      openMessage := Push(AssistantRole, text, toolUses, []);
      model := model.(open := Some(at));
      assert held == [];
    }

    /** One entry of the view. */
    method Take(entry: Entry)
      requires Valid()
      modifies this, openMessage
      ensures Valid() && model == Step(old(model), entry, answered)
      ensures openMessage == null || openMessage == old(openMessage) || fresh(openMessage)
      ensures old(built) <= built && fresh(set m | m in built[|old(built)|..] && m !in old(held))
      ensures fresh(set m | m in held && m !in old(held))
    {
      match entry
      case Bare =>
      case ResultEntry(_, _, _, _, _) =>
        Result(ResultOf(entry));
      case UserEntry(content, kinds, id) =>
        User(WithPlaceholders(content, kinds, id));
      case AssistantEntry(parts) =>
        Response(PartsText(parts), PartsUses(parts));
    }
  }

  /** Projects the view; every message is new and what they hold is what the value-level pass gives. */
  method ProjectView(view: seq<Entry>) returns (built: seq<BuiltMessage>)
    ensures Values(built) == Project(view)
    ensures NoDup(built) && fresh(set m | m in built)
  {
    var pass := new Pass(AnsweredIds(view));
    for k := 0 to |view|
      invariant pass.Valid() && pass.answered == AnsweredIds(view) && fresh(pass)
      invariant fresh(set m | m in pass.built) && fresh(set m | m in pass.held)
      invariant pass.openMessage != null ==> fresh(pass.openMessage)
      invariant pass.model == Run(view[..k], AnsweredIds(view))
    {
      assert view[..k + 1][..k] == view[..k];
      pass.Take(view[k]);
    }
    assert view[..|view|] == view;
    pass.SettleOpen();
    built := pass.built;
  }
}
