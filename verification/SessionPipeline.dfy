/**
 The input pipeline of the Claude host session: inputs wait in a queue, prompts are sent to
 the live generation, and a compact replaces that generation while inputs keep arriving. One
 step is what runs between two waits for the outside: the host, the CLI, the store.
 */
module SessionPipeline {
  import opened Basics

  type Uuid = nat

  datatype Input = Prompt(uuid: Uuid) | CompactCommand(uuid: Uuid)

  /** What began the running compact, and so what goes on when it is done. */
  datatype Origin = Manual | FromSend(prompt: Uuid) | FromResult | MidTurn

  /** Whether the generation's message pump may take a message. */
  datatype Pump = Idle | EndingTurn | InCompact

  /** A generation's unread input and what its CLI has taken from it. */
  datatype Generation = Generation(queue: seq<Uuid>, read: seq<Uuid>)

  /**
   The history: inputs accepted and handed on, what was passed to generations (prompts and
   continuation notes), what CLIs read, began and cancelled, and what a replaced generation
   had read and never begun.
   */
  datatype Log = Log(accepted: seq<Input>, handed: seq<Input>, passed: seq<Uuid>, notes: set<Uuid>, read: seq<Uuid>,
                     settled: set<Uuid>, stranded: set<Uuid>)

  datatype State = State(
    inputs: seq<Input>, sent: map<Uuid, bool>, stopping: bool, compacting: Option<Origin>, autoDue: bool,
    turnOpen: bool, midTurnFailed: bool, pump: Pump, gen: Generation, log: Log)

  datatype Change = Started | Completed | Cancelled

  datatype Event =
    | Accept(input: Input)                        // the host sends a prompt or a compact command
    | ServedContextRead(due: bool)                // a reading of the served context makes a compact due or not
    | ToolUsed(past: bool, settled: bool)         // the PostToolUse hook
    | ResultArrives(hookStopped: bool)            // a result message; its turn end follows unless it was a stop
    | TurnEnds(past: bool)
    | Lifecycle(uuid: Uuid, change: Change)       // a command lifecycle message
    | Reads(opens: bool)                          // the CLI takes the next prompt
    | Begins(uuid: Uuid)                          // the CLI starts running a prompt it took
    | Speaks                                      // an assistant message
    | CompactDone(ok: bool, note: Uuid)

  const START := State([], map[], false, None, false, false, false, Idle, Generation([], []),
                       Log([], [], [], {}, [], {}, {}))

  // ----- The steps, on values -----

  function UuidsOf(inputs: seq<Input>): set<Uuid> {
    set i | i in inputs :: i.uuid
  }

  predicate Fresh(s: State, uuid: Uuid) {
    uuid !in UuidsOf(s.log.accepted) && uuid !in s.log.notes
  }

  /** The CLI holds a prompt it has not reported as started. */
  predicate HoldsUnstarted(s: State, lifecycle: bool) {
    lifecycle && exists u :: u in s.sent && !s.sent[u]
  }

  /** The prompt goes to the live generation. */
  function HandOn(s: State, uuid: Uuid): State {
    s.(sent := s.sent[uuid := false], gen := s.gen.(queue := s.gen.queue + [uuid]),
       log := s.log.(handed := s.log.handed + [Prompt(uuid)], passed := s.log.passed + [uuid]))
  }

  predicate Blocked(s: State) {
    s.sent != map[] || s.compacting.Some? || s.stopping
  }

  /** Starts the next queued input once every earlier one has its result. */
  function StartNext(s: State): State {
    if Blocked(s) || s.inputs == [] then s
    else
      var rest := s.(inputs := s.inputs[1..]);
      match s.inputs[0]
      case CompactCommand(uuid) =>
        rest.(compacting := Some(Manual), log := s.log.(handed := s.log.handed + [s.inputs[0]]))
      case Prompt(uuid) =>
        if s.autoDue && !s.turnOpen then rest.(autoDue := false, compacting := Some(FromSend(uuid)))
        else HandOn(rest, uuid)
  }

  function AcceptStep(s: State, input: Input): State {
    if !Fresh(s, input.uuid) then s
    else
      var t := s.(log := s.log.(accepted := s.log.accepted + [input]));
      if input.CompactCommand? || s.inputs != [] || s.compacting.Some? || s.stopping || s.autoDue then
        StartNext(t.(inputs := t.inputs + [input]))
      else StartNext(HandOn(t, input.uuid))
  }

  function ToolUsedStep(s: State, past: bool, settled: bool, lifecycle: bool): State {
    if s.compacting.Some? || s.stopping || s.midTurnFailed || !(s.autoDue || past) then s
    else if HoldsUnstarted(s, lifecycle) then s.(autoDue := true)
    else if !settled then s
    else s.(stopping := true, autoDue := false)
  }

  function ResultStep(s: State, hookStopped: bool): State {
    if s.pump != Idle then s
    else if s.stopping && hookStopped then s.(stopping := false, compacting := Some(MidTurn), pump := InCompact)
    else s.(stopping := false, midTurnFailed := false, pump := EndingTurn)
  }

  /** What stays outstanding at a turn end: prompts the CLI has not started, if it reports that. */
  function Outstanding(sent: map<Uuid, bool>, lifecycle: bool): map<Uuid, bool> {
    if lifecycle then map u | u in sent && !sent[u] :: false else map[]
  }

  function TurnEndStep(s: State, past: bool, lifecycle: bool): State {
    if s.pump != EndingTurn then s
    else
      var t := s.(turnOpen := false, sent := Outstanding(s.sent, lifecycle), pump := Idle);
      if t.compacting.Some? || !(t.autoDue || past) then StartNext(t)
      else if HoldsUnstarted(t, lifecycle) then StartNext(t.(autoDue := true))
      else t.(autoDue := false, compacting := Some(FromResult), pump := InCompact)
  }

  /** The CLI reports on prompts it has taken, and a start or completion only for those it began. */
  function LifecycleStep(s: State, uuid: Uuid, change: Change): State {
    if s.pump != Idle || uuid !in s.gen.read || (!change.Cancelled? && uuid !in s.log.settled) then s
    else
      var t := if change.Cancelled? then s.(log := s.log.(settled := s.log.settled + {uuid})) else s;
      if uuid !in s.sent then StartNext(t)
      else if change.Started? then StartNext(t.(sent := s.sent[uuid := true]))
      else StartNext(t.(sent := s.sent - {uuid}))
  }

  function ReadStep(s: State, opens: bool): State {
    if s.gen.queue == [] then s
    else
      s.(gen := Generation(s.gen.queue[1..], s.gen.read + [s.gen.queue[0]]), turnOpen := s.turnOpen || opens,
         log := s.log.(read := s.log.read + [s.gen.queue[0]]))
  }

  /** The replaced generation's unread prompts move to the next one. */
  function NextGeneration(s: State): State {
    s.(gen := Generation(s.gen.queue, []), autoDue := false,
       log := s.log.(stranded := s.log.stranded + set u | u in s.gen.read && u !in s.log.settled))
  }

  /** The compact is over, and when it succeeded the next generation is live. */
  function Swapped(s: State, ok: bool): State {
    (if ok then NextGeneration(s) else s).(compacting := None, pump := if s.pump == InCompact then Idle else s.pump)
  }

  /** The continuation note goes to the live generation. */
  function PassNote(s: State, note: Uuid): State {
    s.(sent := s.sent[note := false], gen := s.gen.(queue := s.gen.queue + [note]),
       log := s.log.(passed := s.log.passed + [note], notes := s.log.notes + {note}))
  }

  /** What goes on once the compact is over. */
  function Resume(t: State, origin: Origin, ok: bool, note: Uuid, lifecycle: bool): State {
    match origin
    case Manual => StartNext(t)
    case FromSend(prompt) => StartNext(HandOn(t, prompt))
    case FromResult => StartNext(t)
    case MidTurn =>
      PassNote(t.(midTurnFailed := t.midTurnFailed || !ok, sent := Outstanding(t.sent, lifecycle)), note)
  }

  /** The compact may be done while a turn's end is still being recorded. */
  function CompactDoneStep(s: State, ok: bool, note: Uuid, lifecycle: bool): State {
    if s.compacting.None? || (s.compacting.value.MidTurn? && !Fresh(s, note)) then s
    else Resume(Swapped(s, ok), s.compacting.value, ok, note, lifecycle)
  }

  function Step(s: State, e: Event, lifecycle: bool): State {
    match e
    case Accept(input) => AcceptStep(s, input)
    case ServedContextRead(due) => s.(autoDue := due)
    case ToolUsed(past, settled) => ToolUsedStep(s, past, settled, lifecycle)
    case ResultArrives(hookStopped) => ResultStep(s, hookStopped)
    case TurnEnds(past) => TurnEndStep(s, past, lifecycle)
    case Lifecycle(uuid, change) => if lifecycle then LifecycleStep(s, uuid, change) else s
    case Reads(opens) => ReadStep(s, opens)
    case Begins(uuid) => if uuid in s.gen.read then s.(log := s.log.(settled := s.log.settled + {uuid})) else s
    case Speaks => s.(turnOpen := true)
    case CompactDone(ok, note) => CompactDoneStep(s, ok, note, lifecycle)
  }

  function Run(events: seq<Event>, lifecycle: bool): State {
    if events == [] then START else Step(Run(events[..|events| - 1], lifecycle), events[|events| - 1], lifecycle)
  }

  // ----- Order: what every step keeps -----

  /** The prompt that waits for a compact before it is sent. */
  function InHand(s: State): seq<Input> {
    if s.compacting.Some? && s.compacting.value.FromSend? then [Prompt(s.compacting.value.prompt)] else []
  }

  function PromptsOf(inputs: seq<Input>): seq<Uuid> {
    if inputs == [] then []
    else
      var before, last := PromptsOf(inputs[..|inputs| - 1]), inputs[|inputs| - 1];
      if last.Prompt? then before + [last.uuid] else before
  }

  function Without(uuids: seq<Uuid>, notes: set<Uuid>): seq<Uuid> {
    if uuids == [] then []
    else
      var before, last := Without(uuids[..|uuids| - 1], notes), uuids[|uuids| - 1];
      if last in notes then before else before + [last]
  }

  /** Inputs in arrival order: handed on, then `waiting`, then queued; and prompts as passed and read. */
  ghost predicate InOrder(s: State, waiting: seq<Input>) {
    && s.log.accepted == s.log.handed + waiting + s.inputs
    && s.log.read + s.gen.queue == s.log.passed
    && Without(s.log.passed, s.log.notes) == PromptsOf(s.log.handed)
  }

  ghost predicate DistinctUuids(inputs: seq<Input>) {
    forall i, j :: 0 <= i < j < |inputs| ==> inputs[i].uuid != inputs[j].uuid
  }

  /** Every uuid is used once, and notes are not inputs. */
  ghost predicate Distinct(s: State) {
    && DistinctUuids(s.log.accepted) && NoDup(s.log.passed)
    && s.log.notes !! UuidsOf(s.log.accepted)
    && (forall u :: u in s.log.passed ==> u in s.log.notes || Prompt(u) in s.log.handed)
    && (forall u :: u in s.log.notes ==> u in s.log.passed)
    && (forall u :: u in s.sent ==> u in s.log.passed)
    && (forall u :: u in s.gen.read ==> u in s.log.read)
  }

  ghost predicate TurnCompact(s: State) {
    s.compacting.Some? && (s.compacting.value.FromResult? || s.compacting.value.MidTurn?)
  }

  /** Which of the session's phases exclude each other. */
  ghost predicate Phases(s: State) {
    && (s.compacting.Some? && s.stopping ==> s.compacting.value.FromResult?)
    && (s.pump == InCompact <==> TurnCompact(s))
    && (s.compacting.Some? && !TurnCompact(s) ==> s.sent == map[])
  }

  ghost predicate Inv(s: State) {
    InOrder(s, InHand(s)) && Distinct(s) && Phases(s)
  }

  lemma LogExtends(handed: seq<Input>, i: Input, passed: seq<Uuid>, u: Uuid, notes: set<Uuid>)
    ensures PromptsOf(handed + [i]) == if i.Prompt? then PromptsOf(handed) + [i.uuid] else PromptsOf(handed)
    ensures Without(passed + [u], notes) == if u in notes then Without(passed, notes) else Without(passed, notes) + [u]
  {
    assert (handed + [i])[..|handed|] == handed && (passed + [u])[..|passed|] == passed;
  }

  lemma {:induction false} NewNoteChangesNothing(uuids: seq<Uuid>, notes: set<Uuid>, note: Uuid)
    requires note !in uuids
    ensures Without(uuids, notes + {note}) == Without(uuids, notes)
  {
    if uuids != [] {
      NewNoteChangesNothing(uuids[..|uuids| - 1], notes, note);
    }
  }

  ghost predicate SameHistory(a: Log, b: Log) {
    a.accepted == b.accepted && a.handed == b.handed && a.passed == b.passed && a.notes == b.notes && a.read == b.read
  }

  /** Flags, outstanding prompts and what a CLI began do not matter for the order. */
  lemma QuietChange(s: State, t: State, waiting: seq<Input>)
    requires InOrder(s, waiting) && Distinct(s)
    requires SameHistory(s.log, t.log) && t.inputs == s.inputs && t.gen.queue == s.gen.queue
    requires forall u :: u in t.gen.read ==> u in s.gen.read
    requires forall u :: u in t.sent ==> u in s.sent
    ensures InOrder(t, waiting) && Distinct(t)
  {
  }

  /** The first of the inputs not yet handed on is new to every generation. */
  lemma WaitingIsNew(s: State, next: Input, rest: seq<Input>)
    requires s.log.accepted == s.log.handed + [next] + rest && Distinct(s)
    ensures next.uuid !in s.log.passed && next.uuid !in s.log.notes
  {
    assert s.log.accepted[|s.log.handed|] == next;
    assert next in s.log.accepted;
    forall k | 0 <= k < |s.log.handed| ensures s.log.handed[k].uuid != next.uuid {
      assert s.log.accepted[k] == s.log.handed[k];
    }
  }

  lemma HandOnInOrder(s: State, uuid: Uuid)
    requires InOrder(s, [Prompt(uuid)]) && uuid !in s.log.notes
    ensures InOrder(HandOn(s, uuid), [])
  {
    var t := HandOn(s, uuid);
    assert t.log.handed + [] == t.log.handed;
    assert t.log.accepted == t.log.handed + [] + t.inputs;
    assert t.log.read + t.gen.queue == t.log.passed by {
      ConcatAssociative(s.log.read, s.gen.queue, [uuid]);
    }
    assert Without(t.log.passed, t.log.notes) == PromptsOf(t.log.handed) by {
      LogExtends(s.log.handed, Prompt(uuid), s.log.passed, uuid, s.log.notes);
    }
  }

  lemma HandOnDistinct(s: State, uuid: Uuid)
    requires Distinct(s) && uuid !in s.log.passed
    ensures Distinct(HandOn(s, uuid))
  {
    NoDupAppend(s.log.passed, uuid);
  }

  lemma HandOnKeeps(s: State, uuid: Uuid)
    requires InOrder(s, [Prompt(uuid)]) && Distinct(s) && Phases(s) && s.compacting.None?
    ensures Inv(HandOn(s, uuid))
  {
    WaitingIsNew(s, Prompt(uuid), s.inputs);
    HandOnInOrder(s, uuid);
    HandOnDistinct(s, uuid);
  }

  /** Taking the first queued input out of the queue. */
  lemma PopKeeps(s: State, rest: State)
    requires InOrder(s, []) && Distinct(s) && s.inputs != [] && rest == s.(inputs := s.inputs[1..])
    ensures InOrder(rest, [s.inputs[0]]) && Distinct(rest)
  {
    assert s.log.handed + [] + s.inputs == s.log.handed + [s.inputs[0]] + rest.inputs;
  }

  function BeginCommand(s: State, uuid: Uuid): State {
    s.(compacting := Some(Manual), log := s.log.(handed := s.log.handed + [CompactCommand(uuid)]))
  }

  lemma BeginCommandInOrder(s: State, uuid: Uuid)
    requires InOrder(s, [CompactCommand(uuid)])
    ensures InOrder(BeginCommand(s, uuid), [])
  {
    var t := BeginCommand(s, uuid);
    assert t.log.handed + [] == t.log.handed;
    assert t.log.accepted == t.log.handed + [] + t.inputs;
    LogExtends(s.log.handed, CompactCommand(uuid), [], 0, {});
  }

  lemma BeginCommandKeeps(s: State, uuid: Uuid)
    requires InOrder(s, [CompactCommand(uuid)]) && Distinct(s) && Phases(s) && !Blocked(s)
    ensures Inv(BeginCommand(s, uuid))
  {
    BeginCommandInOrder(s, uuid);
    assert forall i :: i in s.log.handed ==> i in BeginCommand(s, uuid).log.handed;
  }

  lemma AdvanceKeeps(s: State)
    requires Inv(s)
    ensures Inv(StartNext(s))
  {
    if !Blocked(s) && s.inputs != [] {
      var rest := s.(inputs := s.inputs[1..]);
      PopKeeps(s, rest);
      match s.inputs[0]
      case CompactCommand(uuid) => BeginCommandKeeps(rest, uuid);
      case Prompt(uuid) =>
        if s.autoDue && !s.turnOpen {
          QuietChange(rest, StartNext(s), [Prompt(uuid)]);
        } else {
          HandOnKeeps(rest, uuid);
        }
    }
  }

  /** A new input is accepted: it waits behind everything queued. */
  lemma AcceptedDistinct(s: State, input: Input)
    requires Distinct(s) && Fresh(s, input.uuid)
    ensures Distinct(s.(log := s.log.(accepted := s.log.accepted + [input])))
  {
    var accepted := s.log.accepted + [input];
    forall k | 0 <= k < |s.log.accepted| ensures s.log.accepted[k].uuid != input.uuid {
      assert s.log.accepted[k] in s.log.accepted;
    }
    forall i | i in accepted ensures i.uuid !in s.log.notes {
      assert i == input || i in s.log.accepted;
    }
  }

  lemma AcceptedKeeps(s: State, input: Input, t: State)
    requires Inv(s) && Fresh(s, input.uuid)
    requires t == s.(log := s.log.(accepted := s.log.accepted + [input]))
    ensures Distinct(t) && t.log.accepted == s.log.handed + InHand(s) + (s.inputs + [input])
  {
    ConcatAssociative(s.log.handed + InHand(s), s.inputs, [input]);
    AcceptedDistinct(s, input);
  }

  lemma AcceptKeeps(s: State, input: Input)
    requires Inv(s)
    ensures Inv(AcceptStep(s, input))
  {
    if Fresh(s, input.uuid) {
      var t := s.(log := s.log.(accepted := s.log.accepted + [input]));
      AcceptedKeeps(s, input, t);
      if input.CompactCommand? || s.inputs != [] || s.compacting.Some? || s.stopping || s.autoDue {
        var u := t.(inputs := t.inputs + [input]);
        assert Distinct(u);
        AdvanceKeeps(u);
      } else {
        assert s.log.handed + [] + ([] + [input]) == s.log.handed + [input] + [];
        HandOnKeeps(t, input.uuid);
        AdvanceKeeps(HandOn(t, input.uuid));
      }
    }
  }

  lemma FreshIsNew(s: State, waiting: seq<Input>, note: Uuid)
    requires InOrder(s, waiting) && Distinct(s) && Fresh(s, note)
    ensures note !in s.log.passed
  {
    assert forall i :: i in s.log.handed ==> i in s.log.accepted;
  }

  lemma NoteKeeps(s: State, note: Uuid)
    requires InOrder(s, []) && Distinct(s) && Phases(s) && s.compacting.None? && Fresh(s, note)
    ensures Inv(PassNote(s, note))
  {
    FreshIsNew(s, [], note);
    NewNoteChangesNothing(s.log.passed, s.log.notes, note);
    LogExtends([], Prompt(note), s.log.passed, note, s.log.notes + {note});
    ConcatAssociative(s.log.read, s.gen.queue, [note]);
    NoDupAppend(s.log.passed, note);
  }

  lemma SwappedKeeps(s: State, ok: bool)
    requires Inv(s) && s.compacting.Some?
    ensures InOrder(Swapped(s, ok), InHand(s)) && Distinct(Swapped(s, ok)) && Phases(Swapped(s, ok))
  {
    QuietChange(s, Swapped(s, ok), InHand(s));
  }

  lemma ResumeKeeps(t: State, origin: Origin, ok: bool, note: Uuid, lifecycle: bool)
    requires InOrder(t, if origin.FromSend? then [Prompt(origin.prompt)] else []) && Distinct(t) && Phases(t)
    requires t.compacting.None? && (origin.MidTurn? ==> Fresh(t, note))
    ensures Inv(Resume(t, origin, ok, note, lifecycle))
  {
    match origin
    case Manual => AdvanceKeeps(t);
    case FromSend(prompt) =>
      HandOnKeeps(t, prompt);
      AdvanceKeeps(HandOn(t, prompt));
    case FromResult => AdvanceKeeps(t);
    case MidTurn =>
      var u := t.(midTurnFailed := t.midTurnFailed || !ok, sent := Outstanding(t.sent, lifecycle));
      QuietChange(t, u, []);
      NoteKeeps(u, note);
  }

  lemma CompactDoneKeeps(s: State, ok: bool, note: Uuid, lifecycle: bool)
    requires Inv(s)
    ensures Inv(CompactDoneStep(s, ok, note, lifecycle))
  {
    if s.compacting.Some? {
      var t, origin := Swapped(s, ok), s.compacting.value;
      SwappedKeeps(s, ok);
      assert InHand(s) == if origin.FromSend? then [Prompt(origin.prompt)] else [];
      assert Fresh(s, note) ==> Fresh(t, note);
      if origin.MidTurn? ==> Fresh(s, note) {
        ResumeKeeps(t, origin, ok, note, lifecycle);
      }
    }
  }

  lemma TurnEndKeeps(s: State, past: bool, lifecycle: bool)
    requires Inv(s)
    ensures Inv(TurnEndStep(s, past, lifecycle))
  {
    if s.pump == EndingTurn {
      var t := s.(turnOpen := false, sent := Outstanding(s.sent, lifecycle), pump := Idle);
      QuietChange(s, t, InHand(s));
      if t.compacting.Some? || !(t.autoDue || past) {
        AdvanceKeeps(t);
      } else if HoldsUnstarted(t, lifecycle) {
        QuietChange(t, t.(autoDue := true), []);
        AdvanceKeeps(t.(autoDue := true));
      } else {
        QuietChange(t, TurnEndStep(s, past, lifecycle), []);
      }
    }
  }

  lemma LifecycleKeeps(s: State, uuid: Uuid, change: Change)
    requires Inv(s)
    ensures Inv(LifecycleStep(s, uuid, change))
  {
    if s.pump == Idle && uuid in s.gen.read && (change.Cancelled? || uuid in s.log.settled) {
      var t := if change.Cancelled? then s.(log := s.log.(settled := s.log.settled + {uuid})) else s;
      var sent := if uuid !in s.sent then s.sent else if change.Started? then s.sent[uuid := true] else s.sent - {uuid};
      QuietChange(s, t.(sent := sent), InHand(s));
      AdvanceKeeps(t.(sent := sent));
    }
  }

  lemma ReadKeeps(s: State, opens: bool)
    requires Inv(s)
    ensures Inv(ReadStep(s, opens))
  {
    if s.gen.queue != [] {
      assert s.log.read + s.gen.queue == s.log.read + [s.gen.queue[0]] + s.gen.queue[1..];
    }
  }

  lemma ToolUsedKeeps(s: State, past: bool, settled: bool, lifecycle: bool)
    requires Inv(s)
    ensures Inv(ToolUsedStep(s, past, settled, lifecycle))
  {
    QuietChange(s, ToolUsedStep(s, past, settled, lifecycle), InHand(s));
  }

  lemma ResultKeeps(s: State, hookStopped: bool)
    requires Inv(s)
    ensures Inv(ResultStep(s, hookStopped))
  {
    QuietChange(s, ResultStep(s, hookStopped), InHand(s));
  }

  lemma StepKeeps(s: State, e: Event, lifecycle: bool)
    requires Inv(s)
    ensures Inv(Step(s, e, lifecycle))
  {
    match e
    case Accept(input) => AcceptKeeps(s, input);
    case TurnEnds(past) => TurnEndKeeps(s, past, lifecycle);
    case Lifecycle(uuid, change) => LifecycleKeeps(s, uuid, change);
    case Reads(opens) => ReadKeeps(s, opens);
    case CompactDone(ok, note) => CompactDoneKeeps(s, ok, note, lifecycle);
    case ToolUsed(past, settled) => ToolUsedKeeps(s, past, settled, lifecycle);
    case ResultArrives(hookStopped) => ResultKeeps(s, hookStopped);
    case _ => QuietChange(s, Step(s, e, lifecycle), InHand(s));
  }

  lemma {:induction false} RunKeeps(events: seq<Event>, lifecycle: bool)
    ensures Inv(Run(events, lifecycle))
  {
    if events != [] {
      RunKeeps(events[..|events| - 1], lifecycle);
      StepKeeps(Run(events[..|events| - 1], lifecycle), events[|events| - 1], lifecycle);
    }
  }

  // ----- A generation is replaced only when nothing would be stranded -----

  /** With lifecycle reporting, every prompt a CLI holds is accounted for. */
  ghost predicate Covered(s: State) {
    && (forall u :: u in s.gen.queue ==> u in s.sent && !s.sent[u])
    && (forall u :: u in s.gen.read ==> u in s.sent || u in s.log.settled)
    && (forall u :: u in s.sent && s.sent[u] ==> u in s.log.settled)
    && (s.compacting.Some? || s.stopping ==> forall u :: u in s.sent ==> s.sent[u])
    && s.log.stranded == {}
  }

  lemma QueueIsUnread(s: State)
    requires Inv(s)
    ensures forall u :: u in s.gen.queue ==> u !in s.gen.read
  {
    forall i, j | 0 <= i < |s.log.read| && 0 <= j < |s.gen.queue| ensures s.log.read[i] != s.gen.queue[j] {
      assert s.log.passed[i] == s.log.read[i] && s.log.passed[|s.log.read| + j] == s.gen.queue[j];
    }
  }

  lemma HandOnCovers(s: State, uuid: Uuid)
    requires Covered(s) && s.compacting.None? && !s.stopping && uuid !in s.sent
    ensures Covered(HandOn(s, uuid))
  {
  }

  /** A uuid not yet passed to a generation is not outstanding. */
  lemma WaitingIsNotSent(s: State, uuid: Uuid, rest: seq<Input>)
    requires s.log.accepted == s.log.handed + [Prompt(uuid)] + rest && Distinct(s)
    ensures uuid !in s.sent
  {
    WaitingIsNew(s, Prompt(uuid), rest);
  }

  lemma AdvanceCovers(s: State)
    requires Inv(s) && Covered(s)
    ensures Covered(StartNext(s))
  {
  }

  lemma AcceptCovers(s: State, input: Input)
    requires Inv(s) && Covered(s)
    ensures Covered(AcceptStep(s, input))
  {
    if Fresh(s, input.uuid) {
      var t := s.(log := s.log.(accepted := s.log.accepted + [input]));
      AcceptedKeeps(s, input, t);
      if input.CompactCommand? || s.inputs != [] || s.compacting.Some? || s.stopping || s.autoDue {
        AdvanceCovers(t.(inputs := t.inputs + [input]));
      } else {
        assert s.log.handed + [] + ([] + [input]) == s.log.handed + [input] + [];
        WaitingIsNotSent(t, input.uuid, []);
        HandOnKeeps(t, input.uuid);
        HandOnCovers(t, input.uuid);
        AdvanceCovers(HandOn(t, input.uuid));
      }
    }
  }

  lemma OutstandingCovers(s: State, t: State)
    requires Covered(s) && t.sent == Outstanding(s.sent, true) && t.gen == s.gen
    requires t.log.settled == s.log.settled && t.log.stranded == s.log.stranded
    requires t.stopping ==> s.stopping
    requires t.compacting.Some? ==> s.compacting.Some? || s.stopping || !HoldsUnstarted(s, true)
    ensures Covered(t)
  {
  }

  lemma TurnEndCovers(s: State, past: bool)
    requires Inv(s) && Covered(s)
    ensures Covered(TurnEndStep(s, past, true))
  {
    if s.pump == EndingTurn {
      var t := s.(turnOpen := false, sent := Outstanding(s.sent, true), pump := Idle);
      OutstandingCovers(s, t);
      QuietChange(s, t, InHand(s));
      if t.compacting.Some? || !(t.autoDue || past) {
        AdvanceCovers(t);
      } else if HoldsUnstarted(t, true) {
        QuietChange(t, t.(autoDue := true), []);
        AdvanceCovers(t.(autoDue := true));
      } else {
        assert forall u :: u in s.sent && !s.sent[u] ==> u in t.sent;
        OutstandingCovers(s, TurnEndStep(s, past, true));
      }
    }
  }

  /** The CLI reports on a prompt it has taken: it is marked as started, or no longer outstanding. */
  lemma ReportCovers(s: State, t: State, uuid: Uuid)
    requires Inv(s) && Covered(s) && uuid in s.gen.read && uuid in t.log.settled && s.log.settled <= t.log.settled
    requires t.sent == s.sent || t.sent == s.sent[uuid := true] || t.sent == s.sent - {uuid}
    requires t.gen == s.gen && t.log.stranded == s.log.stranded && t.compacting == s.compacting
             && t.stopping == s.stopping
    ensures Covered(t)
  {
    QueueIsUnread(s);
  }

  lemma LifecycleCovers(s: State, uuid: Uuid, change: Change)
    requires Inv(s) && Covered(s)
    ensures Covered(LifecycleStep(s, uuid, change))
  {
    if s.pump == Idle && uuid in s.gen.read && (change.Cancelled? || uuid in s.log.settled) {
      var t := if change.Cancelled? then s.(log := s.log.(settled := s.log.settled + {uuid})) else s;
      var sent := if uuid !in s.sent then s.sent else if change.Started? then s.sent[uuid := true] else s.sent - {uuid};
      ReportCovers(s, t.(sent := sent), uuid);
      QuietChange(s, t.(sent := sent), InHand(s));
      AdvanceCovers(t.(sent := sent));
    }
  }

  /** Nothing is unread and nothing read was left unbegun when the generation is replaced. */
  lemma SwapIsClean(s: State)
    requires Covered(s) && s.compacting.Some?
    ensures s.gen.queue == [] && forall u :: u in s.gen.read ==> u in s.log.settled
  {
    if s.gen.queue != [] {
      FirstIsIn(s.gen.queue);
    }
  }

  lemma ResumeCovers(t: State, origin: Origin, ok: bool, note: Uuid)
    requires InOrder(t, if origin.FromSend? then [Prompt(origin.prompt)] else []) && Distinct(t) && Phases(t)
    requires Covered(t) && t.compacting.None? && (origin.FromSend? || origin.MidTurn? ==> !t.stopping)
    requires forall u :: u in t.sent ==> t.sent[u]
    ensures Covered(Resume(t, origin, ok, note, true))
  {
    match origin
    case Manual => AdvanceCovers(t);
    case FromSend(prompt) =>
      WaitingIsNotSent(t, prompt, t.inputs);
      HandOnKeeps(t, prompt);
      HandOnCovers(t, prompt);
      AdvanceCovers(HandOn(t, prompt));
    case FromResult => AdvanceCovers(t);
    case MidTurn =>
      OutstandingCovers(t, t.(midTurnFailed := t.midTurnFailed || !ok, sent := Outstanding(t.sent, true)));
  }

  lemma CompactDoneCovers(s: State, ok: bool, note: Uuid)
    requires Inv(s) && Covered(s)
    ensures Covered(CompactDoneStep(s, ok, note, true))
  {
    if s.compacting.Some? {
      SwapIsClean(s);
      SwappedKeeps(s, ok);
      assert Swapped(s, ok).log.stranded == {};
      ResumeCovers(Swapped(s, ok), s.compacting.value, ok, note);
    }
  }

  lemma ReadCovers(s: State, opens: bool)
    requires Inv(s) && Covered(s)
    ensures Covered(ReadStep(s, opens))
  {
    if s.gen.queue != [] {
      assert s.gen.queue[0] in s.gen.queue;
      assert forall u :: u in s.gen.queue[1..] ==> u in s.gen.queue;
    }
  }

  lemma StepCovers(s: State, e: Event)
    requires Inv(s) && Covered(s)
    ensures Covered(Step(s, e, true))
  {
    match e
    case Accept(input) => AcceptCovers(s, input);
    case TurnEnds(past) => TurnEndCovers(s, past);
    case Lifecycle(uuid, change) => LifecycleCovers(s, uuid, change);
    case Reads(opens) => ReadCovers(s, opens);
    case CompactDone(ok, note) => CompactDoneCovers(s, ok, note);
    case _ =>
  }

  lemma {:induction false} RunCovers(events: seq<Event>)
    ensures Covered(Run(events, true))
  {
    if events != [] {
      var front := events[..|events| - 1];
      RunCovers(front);
      RunKeeps(front, true);
      StepCovers(Run(front, true), events[|events| - 1]);
    }
  }

  // ----- Main results -----

  /**
   Over every run, with or without lifecycle reporting, inputs are handed on in arrival order,
   none lost and none twice: what was accepted is what was handed on, the prompt waiting for
   a compact, and the queue. Across all generations the prompts handed on are read once each
   in that order, unread ones moving to the next generation.
   */
  lemma InputsKeepTheirOrder(events: seq<Event>, lifecycle: bool)
    ensures var s := Run(events, lifecycle);
      && s.log.accepted == s.log.handed + InHand(s) + s.inputs
      && Without(s.log.read + s.gen.queue, s.log.notes) == PromptsOf(s.log.handed)
      && NoDup(s.log.read + s.gen.queue)
  {
    RunKeeps(events, lifecycle);
  }

  /** The step hands on `i`, which had been waiting; nothing else is outstanding then. */
  ghost predicate StartsAlone(s: State, t: State) {
    && |t.log.handed| <= |s.log.handed| + 1
    && (|t.log.handed| > |s.log.handed| ==>
          var i := t.log.handed[|t.log.handed| - 1];
          i in s.log.accepted ==> t.sent.Keys == if i.Prompt? then {i.uuid} else {})
  }

  lemma AdvanceStartsAlone(s: State, t: State)
    requires t.log.handed == s.log.handed
    ensures StartsAlone(s, StartNext(t))
  {
  }

  lemma AcceptStartsAlone(s: State, input: Input)
    ensures StartsAlone(s, AcceptStep(s, input))
  {
    if Fresh(s, input.uuid) {
      var t := s.(log := s.log.(accepted := s.log.accepted + [input]));
      assert input !in s.log.accepted by {
        assert input in s.log.accepted ==> input.uuid in UuidsOf(s.log.accepted);
      }
      AdvanceStartsAlone(s, t.(inputs := t.inputs + [input]));
    }
  }

  lemma SendStartsAlone(s: State, t: State, prompt: Uuid)
    requires t.log.handed == s.log.handed && t.sent == map[] && t.inputs == s.inputs
    ensures StartsAlone(s, StartNext(HandOn(t, prompt)))
  {
    var sent := HandOn(t, prompt).sent;
    assert prompt in sent && sent != map[];
    assert sent.Keys == {prompt};
  }

  lemma CompactDoneStartsAlone(s: State, ok: bool, note: Uuid, lifecycle: bool)
    requires Inv(s)
    ensures StartsAlone(s, CompactDoneStep(s, ok, note, lifecycle))
  {
    if s.compacting.Some? {
      var t := Swapped(s, ok);
      match s.compacting.value
      case FromSend(prompt) => SendStartsAlone(s, t, prompt);
      case _ => AdvanceStartsAlone(s, t);
    }
  }

  lemma TurnEndStartsAlone(s: State, past: bool, lifecycle: bool)
    ensures StartsAlone(s, TurnEndStep(s, past, lifecycle))
  {
    var t := s.(turnOpen := false, sent := Outstanding(s.sent, lifecycle), pump := Idle);
    AdvanceStartsAlone(s, t);
    AdvanceStartsAlone(s, t.(autoDue := true));
  }

  lemma LifecycleStartsAlone(s: State, uuid: Uuid, change: Change)
    ensures StartsAlone(s, LifecycleStep(s, uuid, change))
  {
    var t := if change.Cancelled? then s.(log := s.log.(settled := s.log.settled + {uuid})) else s;
    AdvanceStartsAlone(s, t);
    AdvanceStartsAlone(s, t.(sent := s.sent[uuid := true]));
    AdvanceStartsAlone(s, t.(sent := s.sent - {uuid}));
  }

  lemma StepStartsAlone(s: State, e: Event, lifecycle: bool)
    requires Inv(s)
    ensures StartsAlone(s, Step(s, e, lifecycle))
  {
    match e
    case Accept(input) => AcceptStartsAlone(s, input);
    case CompactDone(ok, note) => CompactDoneStartsAlone(s, ok, note, lifecycle);
    case TurnEnds(past) => TurnEndStartsAlone(s, past, lifecycle);
    case Lifecycle(uuid, change) => LifecycleStartsAlone(s, uuid, change);
    case _ =>
  }

  /** A queued input starts only once no earlier prompt is outstanding. */
  lemma QueuedInputsStartAlone(events: seq<Event>, e: Event, lifecycle: bool)
    ensures StartsAlone(Run(events, lifecycle), Step(Run(events, lifecycle), e, lifecycle))
  {
    RunKeeps(events, lifecycle);
    StepStartsAlone(Run(events, lifecycle), e, lifecycle);
  }

  /**
   With lifecycle reporting no generation is replaced while a sent prompt is unstarted: while
   a compact runs every outstanding prompt has started, the generation has nothing unread,
   and its CLI has begun or dropped all it took.
   */
  lemma NoSwapWhileUnstarted(events: seq<Event>)
    requires Run(events, true).compacting.Some?
    ensures var s := Run(events, true);
      && (forall u :: u in s.sent ==> s.sent[u])
      && s.gen.queue == [] && (forall u :: u in s.gen.read ==> u in s.log.settled)
  {
    RunCovers(events);
    SwapIsClean(Run(events, true));
  }

  lemma RunExtends(events: seq<Event>, e: Event, lifecycle: bool)
    ensures Run(events + [e], lifecycle) == Step(Run(events, lifecycle), e, lifecycle)
  {
    assert (events + [e])[..|events|] == events;
  }

  /** The run goes on by one event. */
  lemma Then(events: seq<Event>, e: Event, lifecycle: bool) returns (more: seq<Event>)
    ensures more == events + [e] && Run(more, lifecycle) == Step(Run(events, lifecycle), e, lifecycle)
  {
    more := events + [e];
    RunExtends(events, e, lifecycle);
  }

  /**
   While a first prompt's turn is being ended a second one is read, and the turn's compact begins
   before it is begun.
   */
  lemma CompactWithUnbegunPrompt() returns (events: seq<Event>)
    ensures var s := Run(events, false);
      s.gen == Generation([], [1, 2]) && s.compacting == Some(FromResult) && s.pump == InCompact && s.log.settled == {1}
  {
    events := [];
    events := Then(events, Accept(Prompt(1)), false);
    events := Then(events, Reads(true), false);
    events := Then(events, Begins(1), false);
    var s := Run(events, false);
    assert s.gen == Generation([], [1]) && s.sent == map[1 := false] && s.turnOpen && s.log.settled == {1};
    assert Fresh(s, 2) && s.inputs == [] && s.compacting.None? && !s.stopping && !s.autoDue && s.pump == Idle;
    events := Then(events, Accept(Prompt(2)), false);
    s := Run(events, false);
    assert s.gen == Generation([2], [1]) && s.compacting.None? && !s.stopping && s.pump == Idle && s.log.settled == {1};
    events := Then(events, ResultArrives(false), false);
    events := Then(events, Reads(false), false);
    s := Run(events, false);
    assert s.gen == Generation([], [1, 2]) && s.compacting.None? && s.pump == EndingTurn && s.log.settled == {1};
    events := Then(events, TurnEnds(true), false);
  }

  /** A CLI that does not report may have read a prompt it never began when its turn's compact swaps it. */
  lemma SwapStrandsWithoutLifecycle() returns (events: seq<Event>)
    ensures 2 in Run(events, false).log.stranded
  {
    var before := CompactWithUnbegunPrompt();
    events := Then(before, CompactDone(true, 0), false);
    assert 2 in Swapped(Run(before, false), true).log.stranded;
  }

  /** Replacing generations never strands a prompt exactly when the CLI reports command lifecycle. */
  lemma SwapsStrandNothingIffLifecycle(lifecycle: bool)
    ensures (forall events :: Run(events, lifecycle).log.stranded == {}) <==> lifecycle
  {
    if lifecycle {
      forall events ensures Run(events, true).log.stranded == {} {
        RunCovers(events);
      }
    } else {
      var events := SwapStrandsWithoutLifecycle();
    }
  }

  // ----- What a queued input waits for -----

  /** A CLI uses tools and gives results only once it has taken a prompt of its generation. */
  predicate Plausible(s: State, e: Event) {
    e.ToolUsed? || e.ResultArrives? ==> s.gen.read != []
  }

  ghost predicate AllPlausible(events: seq<Event>, lifecycle: bool) {
    events == []
    || (AllPlausible(events[..|events| - 1], lifecycle)
        && Plausible(Run(events[..|events| - 1], lifecycle), events[|events| - 1]))
  }

  /**
   Something outstanding will let the queue go on: a prompt the live generation holds, a running
   compact, a turn's end, or the result of the generation that was asked to stop.
   */
  ghost predicate Waits(s: State) {
    || (exists u :: u in s.sent && (u in s.gen.queue || u in s.gen.read))
    || s.compacting.Some? || s.pump == EndingTurn
    || (s.stopping && s.gen != Generation([], []))
  }

  /** A stop is pending that nothing outstanding can answer. */
  predicate StoppedForGood(s: State) {
    s.stopping && s.gen == Generation([], []) && s.sent == map[] && s.compacting.None? && s.pump == Idle
  }

  /** The step replaces a generation that was asked to stop, and there is no unread prompt to move on. */
  predicate ReplacesStopped(s: State, e: Event) {
    e.CompactDone? && e.ok && s.compacting.Some? && s.stopping && s.gen.queue == []
  }

  ghost predicate EverReplacesStopped(events: seq<Event>, lifecycle: bool) {
    events != []
    && (EverReplacesStopped(events[..|events| - 1], lifecycle)
        || ReplacesStopped(Run(events[..|events| - 1], lifecycle), events[|events| - 1]))
  }

  /** What is outstanding is the live generation's, and a stop is asked of it. */
  ghost predicate IsLive(s: State) {
    && (forall u :: u in s.sent ==> u in s.gen.queue || u in s.gen.read)
    && (s.stopping ==> s.gen != Generation([], []) || StoppedForGood(s))
    && (s.compacting == Some(FromResult) ==> s.sent == map[])
  }

  ghost predicate QueueWaits(s: State) {
    IsLive(s) && (s.inputs != [] ==> Waits(s) || StoppedForGood(s))
  }

  /** Taking the next input leaves the queue with something to wait for. */
  lemma AdvanceWaits(s: State)
    requires IsLive(s)
    ensures QueueWaits(StartNext(s)) && (StoppedForGood(StartNext(s)) <==> StoppedForGood(s))
  {
    var t := StartNext(s);
    assert IsLive(t);
    if !Blocked(s) && s.inputs != [] && s.inputs[0].Prompt? && !(s.autoDue && !s.turnOpen) {
      assert s.inputs[0].uuid in t.sent;
    } else if t.sent != map[] {
      var u :| u in t.sent;
      assert u in t.gen.queue || u in t.gen.read;
    }
  }

  lemma HandOnIsLive(s: State, uuid: Uuid)
    requires IsLive(s) && s.compacting.None? && !s.stopping
    ensures IsLive(HandOn(s, uuid)) && !StoppedForGood(HandOn(s, uuid))
  {
  }

  lemma AcceptWaits(s: State, input: Input)
    requires QueueWaits(s)
    ensures QueueWaits(AcceptStep(s, input)) && (StoppedForGood(AcceptStep(s, input)) <==> StoppedForGood(s))
  {
    if Fresh(s, input.uuid) {
      var t := s.(log := s.log.(accepted := s.log.accepted + [input]));
      if input.CompactCommand? || s.inputs != [] || s.compacting.Some? || s.stopping || s.autoDue {
        AdvanceWaits(t.(inputs := t.inputs + [input]));
      } else {
        HandOnIsLive(t, input.uuid);
        AdvanceWaits(HandOn(t, input.uuid));
      }
    }
  }

  lemma TurnEndWaits(s: State, past: bool, lifecycle: bool)
    requires QueueWaits(s)
    ensures QueueWaits(TurnEndStep(s, past, lifecycle))
    ensures StoppedForGood(TurnEndStep(s, past, lifecycle)) <==> StoppedForGood(s)
  {
    if s.pump == EndingTurn {
      var t := s.(turnOpen := false, sent := Outstanding(s.sent, lifecycle), pump := Idle);
      assert IsLive(t) && !StoppedForGood(t);
      if t.compacting.Some? || !(t.autoDue || past) {
        AdvanceWaits(t);
      } else if HoldsUnstarted(t, lifecycle) {
        AdvanceWaits(t.(autoDue := true));
      } else {
        assert t.sent == map[] by {
          assert forall u :: u in t.sent ==> !t.sent[u];
        }
      }
    }
  }

  lemma LifecycleWaits(s: State, uuid: Uuid, change: Change)
    requires QueueWaits(s)
    ensures QueueWaits(LifecycleStep(s, uuid, change))
    ensures StoppedForGood(LifecycleStep(s, uuid, change)) <==> StoppedForGood(s)
  {
    if s.pump == Idle && uuid in s.gen.read && (change.Cancelled? || uuid in s.log.settled) {
      var t := if change.Cancelled? then s.(log := s.log.(settled := s.log.settled + {uuid})) else s;
      var sent := if uuid !in s.sent then s.sent else if change.Started? then s.sent[uuid := true] else s.sent - {uuid};
      AdvanceWaits(t.(sent := sent));
    }
  }

  lemma ReadWaits(s: State, opens: bool)
    requires QueueWaits(s)
    ensures QueueWaits(ReadStep(s, opens)) && (StoppedForGood(ReadStep(s, opens)) <==> StoppedForGood(s))
  {
    if s.gen.queue != [] {
      var t := ReadStep(s, opens);
      assert s.gen.queue == [s.gen.queue[0]] + s.gen.queue[1..];
      assert forall u :: u in s.gen.queue || u in s.gen.read ==> u in t.gen.queue || u in t.gen.read;
    }
  }

  /** A turn stopped in its middle has settled what was outstanding, and its note is outstanding then. */
  lemma NoteWaits(s: State, ok: bool, note: Uuid, lifecycle: bool)
    requires s.compacting == Some(MidTurn) && !s.stopping
    requires lifecycle ==> forall u :: u in s.sent ==> s.sent[u]
    ensures var t := Resume(Swapped(s, ok), MidTurn, ok, note, lifecycle); QueueWaits(t) && !StoppedForGood(t)
  {
    var t := Resume(Swapped(s, ok), MidTurn, ok, note, lifecycle);
    assert Outstanding(s.sent, lifecycle) == map[];
    assert t.sent == map[note := false] && note in t.sent && note in t.gen.queue;
  }

  lemma SwappedIsLive(s: State, ok: bool)
    requires IsLive(s) && Phases(s) && s.compacting.Some? && !s.compacting.value.MidTurn?
    ensures IsLive(Swapped(s, ok))
    ensures StoppedForGood(Swapped(s, ok)) <==> ReplacesStopped(s, CompactDone(ok, 0))
  {
    assert s.sent == map[];
    if s.stopping {
      assert s.compacting.value.FromResult? && s.pump == InCompact;
    }
  }

  lemma CompactDoneWaits(s: State, ok: bool, note: Uuid, lifecycle: bool)
    requires Phases(s) && QueueWaits(s) && (lifecycle ==> Covered(s))
    ensures var t := CompactDoneStep(s, ok, note, lifecycle);
      QueueWaits(t) && (StoppedForGood(t) <==> StoppedForGood(s) || ReplacesStopped(s, CompactDone(ok, note)))
  {
    if s.compacting.Some? {
      var t, origin := Swapped(s, ok), s.compacting.value;
      if origin.MidTurn? {
        NoteWaits(s, ok, note, lifecycle);
      } else {
        SwappedIsLive(s, ok);
        if origin.FromSend? {
          HandOnIsLive(t, origin.prompt);
          AdvanceWaits(HandOn(t, origin.prompt));
        } else {
          AdvanceWaits(t);
        }
      }
    }
  }

  /** Whatever is asked of a generation that has taken a prompt, its result can answer. */
  lemma ToolUsedWaits(s: State, past: bool, settled: bool, lifecycle: bool)
    requires QueueWaits(s) && s.gen.read != []
    ensures QueueWaits(ToolUsedStep(s, past, settled, lifecycle))
    ensures !StoppedForGood(s) && !StoppedForGood(ToolUsedStep(s, past, settled, lifecycle))
  {
  }

  lemma ResultWaits(s: State, hookStopped: bool)
    requires QueueWaits(s) && s.gen.read != []
    ensures QueueWaits(ResultStep(s, hookStopped)) && !StoppedForGood(s) && !StoppedForGood(ResultStep(s, hookStopped))
  {
  }

  /** Steps that touch nothing anyone waits for. */
  lemma QuietWaits(s: State, t: State)
    requires QueueWaits(s)
    requires t.inputs == s.inputs && t.sent == s.sent && t.stopping == s.stopping && t.compacting == s.compacting
    requires t.pump == s.pump && t.gen == s.gen
    ensures QueueWaits(t) && (StoppedForGood(t) <==> StoppedForGood(s))
  {
  }

  lemma StepWaits(s: State, e: Event, lifecycle: bool)
    requires Phases(s) && QueueWaits(s) && (lifecycle ==> Covered(s)) && Plausible(s, e)
    ensures QueueWaits(Step(s, e, lifecycle))
    ensures StoppedForGood(Step(s, e, lifecycle)) <==> StoppedForGood(s) || ReplacesStopped(s, e)
  {
    var t := Step(s, e, lifecycle);
    match e
    case Accept(input) => AcceptWaits(s, input);
    case TurnEnds(past) => TurnEndWaits(s, past, lifecycle);
    case Lifecycle(uuid, change) => LifecycleWaits(s, uuid, change);
    case Reads(opens) => ReadWaits(s, opens);
    case CompactDone(ok, note) => CompactDoneWaits(s, ok, note, lifecycle);
    case ToolUsed(past, settled) => ToolUsedWaits(s, past, settled, lifecycle);
    case ResultArrives(hookStopped) => ResultWaits(s, hookStopped);
    case ServedContextRead(_) => QuietWaits(s, t);
    case Begins(_) => QuietWaits(s, t);
    case Speaks => QuietWaits(s, t);
  }

  lemma {:induction false} RunWaits(events: seq<Event>, lifecycle: bool)
    requires AllPlausible(events, lifecycle)
    ensures QueueWaits(Run(events, lifecycle))
    ensures StoppedForGood(Run(events, lifecycle)) <==> EverReplacesStopped(events, lifecycle)
  {
    if events != [] {
      var front := events[..|events| - 1];
      RunWaits(front, lifecycle);
      RunKeeps(front, lifecycle);
      if lifecycle {
        RunCovers(front);
      }
      StepWaits(Run(front, lifecycle), events[|events| - 1], lifecycle);
    }
  }

  /**
   A queued input has something outstanding to wait for exactly when no generation was ever
   replaced with a stop pending and no unread prompt to move on.
   */
  lemma QueuedInputWaitsIff(events: seq<Event>, lifecycle: bool)
    requires AllPlausible(events, lifecycle) && Run(events, lifecycle).inputs != []
    ensures Waits(Run(events, lifecycle)) <==> !EverReplacesStopped(events, lifecycle)
  {
    RunWaits(events, lifecycle);
  }

  lemma StoppedForGoodStep(s: State, e: Event, lifecycle: bool)
    requires StoppedForGood(s) && Plausible(s, e)
    ensures StoppedForGood(Step(s, e, lifecycle)) && Step(s, e, lifecycle).log.handed == s.log.handed
  {
  }

  /** After such a replacement nothing is ever handed on again. */
  lemma {:induction false} StoppedForGoodStays(events: seq<Event>, more: seq<Event>, lifecycle: bool)
    requires AllPlausible(events + more, lifecycle) && StoppedForGood(Run(events, lifecycle))
    ensures var s := Run(events + more, lifecycle);
      StoppedForGood(s) && s.log.handed == Run(events, lifecycle).log.handed
    decreases |more|
  {
    if more == [] {
      assert events + more == events;
    } else {
      var front, last := more[..|more| - 1], more[|more| - 1];
      var all := events + more;
      assert all[..|all| - 1] == events + front && all[|all| - 1] == last;
      StoppedForGoodStays(events, front, lifecycle);
      StoppedForGoodStep(Run(events + front, lifecycle), last, lifecycle);
    }
  }

  /** The run goes on by one plausible event. */
  lemma ThenPlausible(events: seq<Event>, e: Event, lifecycle: bool) returns (more: seq<Event>)
    requires AllPlausible(events, lifecycle) && Plausible(Run(events, lifecycle), e)
    ensures more == events + [e] && Run(more, lifecycle) == Step(Run(events, lifecycle), e, lifecycle)
    ensures AllPlausible(more, lifecycle)
  {
    more := Then(events, e, lifecycle);
    assert more[..|more| - 1] == events;
  }

  /** A first prompt is read and its turn begins. */
  lemma FirstTurnBegins() returns (events: seq<Event>)
    ensures AllPlausible(events, true)
    ensures var s := Run(events, true);
      && s.gen == Generation([], [1]) && s.sent == map[1 := false] && s.inputs == [] && s.compacting.None?
      && !s.stopping && !s.autoDue && !s.midTurnFailed && s.pump == Idle && 1 in s.log.settled && Fresh(s, 2)
  {
    events := [];
    events := ThenPlausible(events, Accept(Prompt(1)), true);
    var s := Run(events, true);
    assert s.gen == Generation([1], []) && s.sent == map[1 := false] && s.log.notes == {};
    events := ThenPlausible(events, Reads(true), true);
    events := ThenPlausible(events, Begins(1), true);
  }

  /** A first prompt's turn runs, with lifecycle reported. */
  lemma FirstTurnRuns() returns (events: seq<Event>)
    ensures AllPlausible(events, true)
    ensures var s := Run(events, true);
      && s.gen == Generation([], [1]) && s.sent == map[1 := true] && s.inputs == [] && s.compacting.None?
      && !s.stopping && !s.autoDue && !s.midTurnFailed && s.pump == Idle && Fresh(s, 2)
  {
    events := FirstTurnBegins();
    events := ThenPlausible(events, Lifecycle(1, Started), true);
  }

  /** A tool is used between the turn's result and its end. */
  lemma StopBehindTheResult() returns (events: seq<Event>)
    ensures AllPlausible(events, true)
    ensures var s := Run(events, true);
      && s.compacting.None? && s.stopping && s.gen == Generation([], [1]) && s.sent == map[1 := true]
      && s.pump == EndingTurn && s.inputs == [] && Fresh(s, 2)
  {
    events := FirstTurnRuns();
    events := ThenPlausible(events, ResultArrives(false), true);
    events := ThenPlausible(events, ToolUsed(true, true), true);
  }

  /** And the turn's compact begins. */
  lemma CompactWithAStopPending() returns (events: seq<Event>)
    ensures AllPlausible(events, true)
    ensures var s := Run(events, true);
      && s.compacting == Some(FromResult) && s.stopping && s.gen == Generation([], [1]) && s.sent == map[]
      && s.pump == InCompact && s.inputs == [] && Fresh(s, 2)
  {
    events := StopBehindTheResult();
    events := ThenPlausible(events, TurnEnds(true), true);
  }

  /**
   A run in which an input is queued for good, although the CLI reports command lifecycle: a tool
   is used between a turn's result and its end, and the turn's compact replaces the generation.
   */
  lemma InputQueuedForGood() returns (events: seq<Event>)
    ensures AllPlausible(events, true) && StoppedForGood(Run(events, true)) && Run(events, true).inputs == [Prompt(2)]
  {
    events := CompactWithAStopPending();
    events := ThenPlausible(events, CompactDone(true, 0), true);
    var s := Run(events, true);
    assert StoppedForGood(s) && Fresh(s, 2) && s.inputs == [];
    events := ThenPlausible(events, Accept(Prompt(2)), true);
  }

  // ----- The session object -----

  /** The queue a generation's CLI reads its prompts from. */
  class InputQueue {
    var items: seq<Uuid>
    var ended: bool

    constructor ()
      ensures items == [] && !ended
    {
      items, ended := [], false;
    }

    method Push(uuid: Uuid)
      modifies this
      ensures items == old(items) + [uuid] && ended == old(ended)
    {
      items := items + [uuid];
    }

    method Drain() returns (leftover: seq<Uuid>)
      modifies this
      ensures leftover == old(items) && items == [] && ended
    {
      leftover := items;
      items, ended := [], true;
    }
  }

  class Session {
    const lifecycle: bool
    var inputs: seq<Input>
    var sent: map<Uuid, bool>
    var stopping: bool
    var compacting: Option<Origin>
    var autoDue: bool
    var turnOpen: bool
    var midTurnFailed: bool
    var pump: Pump
    var input: InputQueue
    ghost var read: seq<Uuid>
    ghost var log: Log

    constructor (lifecycle: bool)
      ensures Abs() == START && this.lifecycle == lifecycle && fresh(input)
    {
      this.lifecycle := lifecycle;
      inputs, sent, stopping, compacting, autoDue := [], map[], false, None, false;
      turnOpen, midTurnFailed, pump, read, log := false, false, Idle, [], START.log;
      input := new InputQueue();
    }

    ghost function Abs(): State
      reads this, input
    {
      State(inputs, sent, stopping, compacting, autoDue, turnOpen, midTurnFailed, pump, Generation(input.items, read),
            log)
    }

    predicate CliHoldsUnstarted()
      reads this
    {
      lifecycle && exists u :: u in sent && !sent[u]
    }

    method HandOver(uuid: Uuid)
      modifies this, input
      ensures input == old(input) && Abs() == HandOn(old(Abs()), uuid)
    {
      sent := sent[uuid := false];
      input.Push(uuid);
      log := log.(handed := log.handed + [Prompt(uuid)], passed := log.passed + [uuid]);
    }

    /** Sends a prompt, or begins the automatic compact it has to wait for. */
    method Send(uuid: Uuid)
      requires compacting.None?
      modifies this, input
      ensures input == old(input)
      ensures Abs() == if old(autoDue && !turnOpen)
                       then old(Abs()).(autoDue := false, compacting := Some(FromSend(uuid)))
                       else HandOn(old(Abs()), uuid)
    {
      if autoDue && !turnOpen {
        autoDue := false;
        compacting := Some(FromSend(uuid));
        return;
      }
      HandOver(uuid);
    }

    method Advance()
      modifies this, input
      ensures input == old(input) && Abs() == StartNext(old(Abs()))
    {
      while sent == map[] && compacting.None? && !stopping
        invariant input == old(input)
        invariant StartNext(Abs()) == StartNext(old(Abs()))
        decreases |inputs|
      {
        if inputs == [] {
          break;
        }
        var next := inputs[0];
        inputs := inputs[1..];
        match next
        case CompactCommand(uuid) =>
          compacting := Some(Manual);
          log := log.(handed := log.handed + [next]);
        case Prompt(uuid) =>
          Send(uuid);
          assert compacting.None? ==> uuid in sent;
      }
    }

    method PushUser(next: Input)
      requires Fresh(Abs(), next.uuid)
      modifies this, input
      ensures input == old(input) && Abs() == AcceptStep(old(Abs()), next)
    {
      log := log.(accepted := log.accepted + [next]);
      if next.CompactCommand? || inputs != [] || compacting.Some? || stopping || autoDue {
        inputs := inputs + [next];
      } else {
        Send(next.uuid);
      }
      Advance();
    }

    /** The CLI takes the next prompt of the live generation. */
    method CliReads(opens: bool) returns (uuid: Uuid)
      requires input.items != []
      modifies this, input
      ensures input == old(input) && uuid == old(input.items)[0] && Abs() == ReadStep(old(Abs()), opens)
    {
      uuid := input.items[0];
      input.items := input.items[1..];
      read, turnOpen := read + [uuid], turnOpen || opens;
      log := log.(read := log.read + [uuid]);
    }

    method OnPostToolUse(past: bool, settled: bool) returns (stop: bool)
      modifies this
      ensures input == old(input) && Abs() == ToolUsedStep(old(Abs()), past, settled, lifecycle)
      ensures stop <==> stopping && !old(stopping)
    {
      stop := false;
      if compacting.Some? || stopping || midTurnFailed || !(autoDue || past) {
        return;
      }
      if CliHoldsUnstarted() {
        autoDue := true;
        return;
      }
      if settled {
        stopping, autoDue, stop := true, false, true;
      }
    }

    method OnResult(hookStopped: bool)
      requires pump == Idle
      modifies this
      ensures input == old(input) && Abs() == ResultStep(old(Abs()), hookStopped)
    {
      var trigger := stopping;
      stopping := false;
      if trigger && hookStopped {
        compacting, pump := Some(MidTurn), InCompact;
        return;
      }
      midTurnFailed, pump := false, EndingTurn;
    }

    /** Drops what is no longer outstanding: started prompts, or all without lifecycle reports. */
    method Settle()
      modifies `sent
      ensures sent == Outstanding(old(sent), lifecycle)
    {
      var left := sent.Keys;
      ghost var before := sent;
      while left != {}
        invariant left <= sent.Keys <= before.Keys
        invariant forall u :: u in sent ==> sent[u] == before[u]
        invariant forall u :: u in before && u !in left ==> (u in sent <==> lifecycle && !before[u])
        decreases left
      {
        var uuid :| uuid in left;
        if sent[uuid] || !lifecycle {
          sent := sent - {uuid};
        }
        left := left - {uuid};
      }
    }

    method OnTurnEnd(past: bool)
      requires pump == EndingTurn
      modifies this, input
      ensures input == old(input) && Abs() == TurnEndStep(old(Abs()), past, lifecycle)
    {
      turnOpen, pump := false, Idle;
      Settle();
      var due := false;
      if compacting.None? {
        due := autoDue || past;
        if autoDue {
          autoDue := false;
        }
      }
      if due && CliHoldsUnstarted() {
        autoDue, due := true, false;
      }
      if due {
        compacting, pump := Some(FromResult), InCompact;
        return;
      }
      Advance();
    }

    method OnCommandLifecycle(uuid: Uuid, change: Change)
      requires lifecycle && pump == Idle && uuid in read && (change.Cancelled? || uuid in log.settled)
      modifies this, input
      ensures input == old(input) && Abs() == LifecycleStep(old(Abs()), uuid, change)
    {
      if change.Cancelled? {
        log := log.(settled := log.settled + {uuid});
      }
      if uuid in sent {
        if change.Started? {
          sent := sent[uuid := true];
        } else {
          sent := sent - {uuid};
        }
      }
      Advance();
    }

    /** The live generation becomes the next one; prompts its CLI had not read move over in order. */
    method Adopt()
      modifies this, input
      ensures fresh(input) && Abs() == NextGeneration(old(Abs()))
    {
      var next := new InputQueue();
      var leftover := input.Drain();
      for k := 0 to |leftover|
        invariant next.items == leftover[..k] && fresh(next)
        invariant unchanged(this)
      {
        next.Push(leftover[k]);
      }
      log := log.(stranded := log.stranded + set u | u in read && u !in log.settled);
      input, read, autoDue := next, [], false;
    }

    method GoOn(origin: Origin, ok: bool, note: Uuid)
      modifies this, input
      ensures input == old(input) && Abs() == Resume(old(Abs()), origin, ok, note, lifecycle)
    {
      match origin
      case Manual => Advance();
      case FromSend(prompt) =>
        HandOver(prompt);
        Advance();
      case FromResult => Advance();
      case MidTurn =>
        midTurnFailed := midTurnFailed || !ok;
        Settle();
        sent := sent[note := false];
        input.Push(note);
        log := log.(passed := log.passed + [note], notes := log.notes + {note});
    }

    /** The compact is over: the next generation is live when it succeeded, and what waited for it goes on. */
    method FinishCompact(ok: bool, note: Uuid)
      requires compacting.Some? && (compacting.value.MidTurn? ==> Fresh(Abs(), note))
      modifies this, input
      ensures (input == old(input) || fresh(input)) && Abs() == CompactDoneStep(old(Abs()), ok, note, lifecycle)
    {
      var origin := compacting.value;
      if ok {
        Adopt();
      }
      compacting := None;
      if pump == InCompact {
        pump := Idle;
      }
      GoOn(origin, ok, note);
    }
  }
}
