/**
 The session's state told by its events: since which of them a stop is pending, a turn is
 ending, a compact is due, a turn is open, and a prompt outstanding.
 */
module SessionHistories {
  import opened Basics
  import opened SessionPipeline

  // ----- Stops and turn ends -----

  /** A result the session takes up: none is while it ends a turn or compacts. */
  predicate TakesResult(s: State, e: Event) {
    e.ResultArrives? && s.pump == Idle
  }

  /** The result of a turn the hook stopped: it was asked for, and the CLI says it was heeded. */
  predicate TakesStopped(s: State, e: Event) {
    TakesResult(s, e) && e.hookStopped && s.stopping
  }

  /** The hook asks the CLI to stop: a compact is due at a safe boundary, and none runs or failed in this turn. */
  predicate AsksToStop(s: State, e: Event, lifecycle: bool) {
    && e.ToolUsed? && e.settled && (e.past || s.autoDue)
    && s.compacting.None? && !s.midTurnFailed && !(lifecycle && exists u :: u in s.sent && !s.sent[u])
  }

  /** A stop was asked for, and no result has come since. */
  ghost predicate StopPending(events: seq<Event>, lifecycle: bool) {
    events != [] &&
    var front, last := events[..|events| - 1], events[|events| - 1];
    var s := Run(front, lifecycle);
    !TakesResult(s, last) && (AsksToStop(s, last, lifecycle) || StopPending(front, lifecycle))
  }

  /** The last result taken was a stopped one, and its compact is not done. */
  ghost predicate MidTurnCompactRuns(events: seq<Event>, lifecycle: bool) {
    events != [] &&
    var front, last := events[..|events| - 1], events[|events| - 1];
    var s := Run(front, lifecycle);
    || TakesStopped(s, last)
    || (MidTurnCompactRuns(front, lifecycle) && !(last.CompactDone? && Fresh(s, last.note)))
  }

  /** Some other result was taken, and its turn has not been ended since. */
  ghost predicate TurnIsEnding(events: seq<Event>, lifecycle: bool) {
    events != [] &&
    var front, last := events[..|events| - 1], events[|events| - 1];
    var s := Run(front, lifecycle);
    || (TakesResult(s, last) && !TakesStopped(s, last))
    || (TurnIsEnding(front, lifecycle) && !last.TurnEnds?)
  }

  /** How many results of stopped turns were taken. */
  ghost function StoppedResults(events: seq<Event>, lifecycle: bool): nat {
    if events == [] then 0
    else
      var front, last := events[..|events| - 1], events[|events| - 1];
      StoppedResults(front, lifecycle) + if TakesStopped(Run(front, lifecycle), last) then 1 else 0
  }

  /** A mid-turn compact failed in the turn that still runs. */
  ghost predicate MidTurnHasFailed(events: seq<Event>, lifecycle: bool) {
    events != [] &&
    var front, last := events[..|events| - 1], events[|events| - 1];
    var s := Run(front, lifecycle);
    if TakesResult(s, last) && !TakesStopped(s, last) then false
    else
      || MidTurnHasFailed(front, lifecycle)
      || (last.CompactDone? && !last.ok && MidTurnCompactRuns(front, lifecycle) && Fresh(s, last.note))
  }

  /** What one event does to stops, mid-turn compacts, turn ends and notes. */
  ghost predicate PhasesStep(s: State, e: Event, lifecycle: bool, t: State) {
    && (t.stopping <==> !TakesResult(s, e) && (AsksToStop(s, e, lifecycle) || s.stopping))
    && (t.compacting == Some(MidTurn)
        <==> TakesStopped(s, e) || (s.compacting == Some(MidTurn) && !(e.CompactDone? && Fresh(s, e.note))))
    && (t.pump == EndingTurn
        <==> (TakesResult(s, e) && !TakesStopped(s, e)) || (s.pump == EndingTurn && !e.TurnEnds?))
    && t.log.notes == (if s.compacting == Some(MidTurn) && e.CompactDone? && Fresh(s, e.note)
                       then s.log.notes + {e.note} else s.log.notes)
    && (t.midTurnFailed
        <==> if TakesResult(s, e) && !TakesStopped(s, e) then false
             else s.midTurnFailed
                  || (e.CompactDone? && !e.ok && s.compacting == Some(MidTurn) && Fresh(s, e.note)))
  }

  ghost predicate SamePhase(s: State, t: State) {
    && t.stopping == s.stopping && t.midTurnFailed == s.midTurnFailed && t.log.notes == s.log.notes
    && (t.compacting == Some(MidTurn) <==> s.compacting == Some(MidTurn))
  }

  lemma AdvanceKeepsPhase(s: State)
    ensures SamePhase(s, StartNext(s)) && StartNext(s).pump == s.pump
  {
  }

  lemma AcceptPhases(s: State, input: Input, lifecycle: bool)
    ensures PhasesStep(s, Accept(input), lifecycle, AcceptStep(s, input))
  {
    var t := s.(log := s.log.(accepted := s.log.accepted + [input]));
    AdvanceKeepsPhase(t.(inputs := t.inputs + [input]));
    AdvanceKeepsPhase(HandOn(t, input.uuid));
  }

  lemma TurnEndPhases(s: State, past: bool, lifecycle: bool)
    requires Phases(s)
    ensures PhasesStep(s, TurnEnds(past), lifecycle, TurnEndStep(s, past, lifecycle))
  {
    var t := s.(turnOpen := false, sent := Outstanding(s.sent, lifecycle), pump := Idle);
    AdvanceKeepsPhase(t);
    AdvanceKeepsPhase(t.(autoDue := true));
  }

  lemma LifecyclePhases(s: State, uuid: Uuid, change: Change, lifecycle: bool)
    ensures PhasesStep(s, Lifecycle(uuid, change), lifecycle, LifecycleStep(s, uuid, change))
  {
    var t := if change.Cancelled? then s.(log := s.log.(settled := s.log.settled + {uuid})) else s;
    AdvanceKeepsPhase(t);
    AdvanceKeepsPhase(t.(sent := s.sent[uuid := true]));
    AdvanceKeepsPhase(t.(sent := s.sent - {uuid}));
  }

  lemma CompactDonePhases(s: State, ok: bool, note: Uuid, lifecycle: bool)
    requires Phases(s)
    ensures PhasesStep(s, CompactDone(ok, note), lifecycle, CompactDoneStep(s, ok, note, lifecycle))
  {
    if s.compacting.Some? {
      var t := Swapped(s, ok);
      match s.compacting.value
      case FromSend(prompt) => AdvanceKeepsPhase(HandOn(t, prompt));
      case MidTurn =>
      case _ => AdvanceKeepsPhase(t);
    }
  }

  lemma ResultPhases(s: State, hookStopped: bool, lifecycle: bool)
    requires Phases(s)
    ensures PhasesStep(s, ResultArrives(hookStopped), lifecycle, ResultStep(s, hookStopped))
  {
  }

  lemma ToolUsedPhases(s: State, past: bool, settled: bool, lifecycle: bool)
    ensures PhasesStep(s, ToolUsed(past, settled), lifecycle, ToolUsedStep(s, past, settled, lifecycle))
  {
  }

  lemma StepPhases(s: State, e: Event, lifecycle: bool)
    requires Phases(s)
    ensures PhasesStep(s, e, lifecycle, Step(s, e, lifecycle))
  {
    match e
    case Accept(input) => AcceptPhases(s, input, lifecycle);
    case TurnEnds(past) => TurnEndPhases(s, past, lifecycle);
    case Lifecycle(uuid, change) =>
      if lifecycle {
        LifecyclePhases(s, uuid, change, lifecycle);
      }
    case CompactDone(ok, note) => CompactDonePhases(s, ok, note, lifecycle);
    case ResultArrives(hookStopped) => ResultPhases(s, hookStopped, lifecycle);
    case ToolUsed(past, settled) => ToolUsedPhases(s, past, settled, lifecycle);
    case _ =>
  }

  /**
   Over every run, told by its events: a stop is pending exactly since the hook last asked for one,
   until a result is taken; a mid-turn compact runs exactly from a stopped turn's result until it is
   done; any other result taken has its turn ended; each continuation note answers one stopped
   result; and no further stop is asked for in a turn whose mid-turn compact failed.
   */
  lemma {:induction false} StopsAndTurnEnds(events: seq<Event>, lifecycle: bool)
    ensures var s := Run(events, lifecycle);
      && (s.stopping <==> StopPending(events, lifecycle))
      && (s.compacting == Some(MidTurn) <==> MidTurnCompactRuns(events, lifecycle))
      && (s.pump == EndingTurn <==> TurnIsEnding(events, lifecycle))
      && (s.midTurnFailed <==> MidTurnHasFailed(events, lifecycle))
      && |s.log.notes| + (if MidTurnCompactRuns(events, lifecycle) then 1 else 0) == StoppedResults(events, lifecycle)
  {
    if events != [] {
      var front := events[..|events| - 1];
      StopsAndTurnEnds(front, lifecycle);
      RunKeeps(front, lifecycle);
      StepPhases(Run(front, lifecycle), events[|events| - 1], lifecycle);
    }
  }

  // ----- When an automatic compact is due, and when it begins -----

  /** Some outstanding prompt was not reported as started, where starts are reported. */
  ghost predicate HasUnstarted(s: State, lifecycle: bool) {
    lifecycle && exists u :: u in s.sent && !s.sent[u]
  }

  /** The compact ends, and a new generation goes live. */
  predicate GoesLive(s: State, e: Event) {
    && e.CompactDone? && e.ok && s.compacting.Some?
    && (s.compacting.value.MidTurn? ==> Fresh(s, e.note))
  }

  /** The next state's compact is one the earlier state had not: an automatic one at a turn's end or before a prompt. */
  predicate AutoBegun(s: State, t: State) {
    && t.compacting != s.compacting && t.compacting.Some?
    && (t.compacting.value.FromSend? || t.compacting.value.FromResult?)
  }

  /** The context is past the trigger, and the compact has to wait for a prompt the CLI has not started. */
  ghost predicate PutsOff(s: State, e: Event, lifecycle: bool) {
    && HasUnstarted(s, lifecycle) && s.compacting.None?
    && ((e.ToolUsed? && e.past && !s.stopping && !s.midTurnFailed)
        || (e.TurnEnds? && e.past && s.pump == EndingTurn))
  }

  /**
   A compact is due since a reading of the served context said so or one was put off, until one
   begins, a stop is asked for, a new generation goes live, or a reading says otherwise.
   */
  ghost predicate CompactIsDue(events: seq<Event>, lifecycle: bool) {
    events != [] &&
    var front, last := events[..|events| - 1], events[|events| - 1];
    var s := Run(front, lifecycle);
    if last.ServedContextRead? then last.due
    else
      && !(AsksToStop(s, last, lifecycle) && !s.stopping) && !AutoBegun(s, Run(events, lifecycle))
      && !GoesLive(s, last) && (CompactIsDue(front, lifecycle) || PutsOff(s, last, lifecycle))
  }

  /** A turn is open since the CLI took a prompt that opens one, or spoke, until a turn's end. */
  ghost predicate TurnIsOpen(events: seq<Event>, lifecycle: bool) {
    events != [] &&
    var front, last := events[..|events| - 1], events[|events| - 1];
    var s := Run(front, lifecycle);
    || last.Speaks? || (last.Reads? && last.opens && s.gen.queue != [])
    || (TurnIsOpen(front, lifecycle) && !(last.TurnEnds? && s.pump == EndingTurn))
  }

  /** What one event makes of the compact that is due and of the open turn. */
  ghost predicate DueStep(s: State, e: Event, lifecycle: bool, t: State) {
    && (t.autoDue
        <==> if e.ServedContextRead? then e.due
             else && !(AsksToStop(s, e, lifecycle) && !s.stopping) && !AutoBegun(s, t)
                  && !GoesLive(s, e) && (s.autoDue || PutsOff(s, e, lifecycle)))
    && (t.turnOpen
        <==> e.Speaks? || (e.Reads? && e.opens && s.gen.queue != [])
             || (s.turnOpen && !(e.TurnEnds? && s.pump == EndingTurn)))
  }

  /** The step hands the prompt on. */
  ghost predicate HandsOn(s: State, t: State, uuid: Uuid) {
    Prompt(uuid) in t.log.handed && Prompt(uuid) !in s.log.handed
  }

  /**
   What begins when: at a turn's end a compact that is due or past the trigger, unless the CLI
   holds an unstarted prompt; before a prompt one that is due, outside a turn; and no prompt is
   handed on outside a turn while one is due, but the one that waited for it.
   */
  ghost predicate BeginsStep(s: State, e: Event, lifecycle: bool, t: State) {
    && (t.compacting == Some(FromResult) && s.compacting != t.compacting
        <==> && e.TurnEnds? && s.pump == EndingTurn && s.compacting.None? && (e.past || s.autoDue)
             && !HasUnstarted(s, lifecycle))
    && (forall u :: t.compacting == Some(FromSend(u)) && s.compacting != t.compacting ==>
          s.autoDue && !s.turnOpen && (Prompt(u) in s.inputs || e == Accept(Prompt(u))))
    && (forall u :: HandsOn(s, t, u) ==>
          || (s.compacting == Some(FromSend(u)) && e.CompactDone?)
          || (s.compacting.Some? && GoesLive(s, e))
          || (if e.TurnEnds? then !s.autoDue && !e.past else !s.autoDue || s.turnOpen))
  }

  /** What starting the next queued input does to all that. */
  ghost predicate AdvancedDue(s: State, t: State) {
    && t.turnOpen == s.turnOpen && (t.autoDue <==> s.autoDue && !AutoBegun(s, t))
    && (t.compacting == Some(FromResult) ==> s.compacting == t.compacting)
    && (s.compacting.Some? ==> t == s)
    && (forall u :: t.compacting == Some(FromSend(u)) && s.compacting != t.compacting ==>
          s.autoDue && !s.turnOpen && Prompt(u) in s.inputs)
    && (forall u :: HandsOn(s, t, u) ==> Prompt(u) in s.inputs && (!s.autoDue || s.turnOpen))
  }

  lemma AdvanceIsDue(s: State)
    ensures AdvancedDue(s, StartNext(s))
  {
  }

  lemma AcceptIsDue(s: State, input: Input, lifecycle: bool)
    ensures DueStep(s, Accept(input), lifecycle, AcceptStep(s, input))
    ensures BeginsStep(s, Accept(input), lifecycle, AcceptStep(s, input))
  {
    var t := s.(log := s.log.(accepted := s.log.accepted + [input]));
    AdvanceIsDue(t.(inputs := t.inputs + [input]));
    AdvanceIsDue(HandOn(t, input.uuid));
  }

  lemma TurnEndIsDue(s: State, past: bool, lifecycle: bool)
    requires Phases(s)
    ensures DueStep(s, TurnEnds(past), lifecycle, TurnEndStep(s, past, lifecycle))
    ensures BeginsStep(s, TurnEnds(past), lifecycle, TurnEndStep(s, past, lifecycle))
  {
    var t := s.(turnOpen := false, sent := Outstanding(s.sent, lifecycle), pump := Idle);
    if HasUnstarted(s, lifecycle) {
      var u :| u in s.sent && !s.sent[u];
      assert u in t.sent && !t.sent[u];
    }
    AdvanceIsDue(t);
    AdvanceIsDue(t.(autoDue := true));
  }

  lemma LifecycleIsDue(s: State, uuid: Uuid, change: Change, lifecycle: bool)
    ensures DueStep(s, Lifecycle(uuid, change), lifecycle, LifecycleStep(s, uuid, change))
    ensures BeginsStep(s, Lifecycle(uuid, change), lifecycle, LifecycleStep(s, uuid, change))
  {
    var t := if change.Cancelled? then s.(log := s.log.(settled := s.log.settled + {uuid})) else s;
    AdvanceIsDue(t);
    AdvanceIsDue(t.(sent := s.sent[uuid := true]));
    AdvanceIsDue(t.(sent := s.sent - {uuid}));
  }

  /** Sending what waited for the compact leaves nothing else to be started. */
  lemma SendAfterCompact(s: State, ok: bool, prompt: Uuid)
    ensures StartNext(HandOn(Swapped(s, ok), prompt)) == HandOn(Swapped(s, ok), prompt)
  {
    assert prompt in HandOn(Swapped(s, ok), prompt).sent;
  }

  lemma SendingDoneIsDue(s: State, ok: bool, note: Uuid, lifecycle: bool)
    requires Phases(s) && s.compacting.Some? && s.compacting.value.FromSend?
    ensures DueStep(s, CompactDone(ok, note), lifecycle, CompactDoneStep(s, ok, note, lifecycle))
    ensures BeginsStep(s, CompactDone(ok, note), lifecycle, CompactDoneStep(s, ok, note, lifecycle))
  {
    var t, prompt := Swapped(s, ok), s.compacting.value.prompt;
    SendAfterCompact(s, ok, prompt);
    assert CompactDoneStep(s, ok, note, lifecycle) == HandOn(t, prompt);
    assert HandOn(t, prompt).log.handed == s.log.handed + [Prompt(prompt)];
  }

  lemma MidTurnDoneIsDue(s: State, ok: bool, note: Uuid, lifecycle: bool)
    requires Phases(s) && s.compacting == Some(MidTurn)
    ensures DueStep(s, CompactDone(ok, note), lifecycle, CompactDoneStep(s, ok, note, lifecycle))
    ensures BeginsStep(s, CompactDone(ok, note), lifecycle, CompactDoneStep(s, ok, note, lifecycle))
  {
    var t := CompactDoneStep(s, ok, note, lifecycle);
    assert t.log.handed == s.log.handed;
  }

  lemma TurnDoneIsDue(s: State, ok: bool, note: Uuid, lifecycle: bool)
    requires Phases(s) && s.compacting in {Some(Manual), Some(FromResult)}
    ensures DueStep(s, CompactDone(ok, note), lifecycle, CompactDoneStep(s, ok, note, lifecycle))
    ensures BeginsStep(s, CompactDone(ok, note), lifecycle, CompactDoneStep(s, ok, note, lifecycle))
  {
    AdvanceIsDue(Swapped(s, ok));
  }

  lemma CompactDoneIsDue(s: State, ok: bool, note: Uuid, lifecycle: bool)
    requires Phases(s)
    ensures DueStep(s, CompactDone(ok, note), lifecycle, CompactDoneStep(s, ok, note, lifecycle))
    ensures BeginsStep(s, CompactDone(ok, note), lifecycle, CompactDoneStep(s, ok, note, lifecycle))
  {
    match s.compacting
    case None =>
    case Some(FromSend(_)) => SendingDoneIsDue(s, ok, note, lifecycle);
    case Some(MidTurn) => MidTurnDoneIsDue(s, ok, note, lifecycle);
    case Some(_) => TurnDoneIsDue(s, ok, note, lifecycle);
  }

  lemma ToolUsedIsDue(s: State, past: bool, settled: bool, lifecycle: bool)
    ensures DueStep(s, ToolUsed(past, settled), lifecycle, ToolUsedStep(s, past, settled, lifecycle))
    ensures BeginsStep(s, ToolUsed(past, settled), lifecycle, ToolUsedStep(s, past, settled, lifecycle))
  {
  }

  lemma ResultIsDue(s: State, hookStopped: bool, lifecycle: bool)
    ensures DueStep(s, ResultArrives(hookStopped), lifecycle, ResultStep(s, hookStopped))
    ensures BeginsStep(s, ResultArrives(hookStopped), lifecycle, ResultStep(s, hookStopped))
  {
  }

  /** The other events leave the compact as it is, and hand nothing on. */
  lemma OtherIsDue(s: State, e: Event, lifecycle: bool)
    requires e.ServedContextRead? || e.Reads? || e.Begins? || e.Speaks?
    ensures DueStep(s, e, lifecycle, Step(s, e, lifecycle)) && BeginsStep(s, e, lifecycle, Step(s, e, lifecycle))
  {
    var t := Step(s, e, lifecycle);
    assert t.compacting == s.compacting && t.log.handed == s.log.handed;
  }

  lemma NothingIsDue(s: State, uuid: Uuid, change: Change)
    ensures DueStep(s, Lifecycle(uuid, change), false, s) && BeginsStep(s, Lifecycle(uuid, change), false, s)
  {
  }

  lemma StepIsDue(s: State, e: Event, lifecycle: bool)
    requires Phases(s)
    ensures DueStep(s, e, lifecycle, Step(s, e, lifecycle)) && BeginsStep(s, e, lifecycle, Step(s, e, lifecycle))
  {
    match e
    case Accept(input) => AcceptIsDue(s, input, lifecycle);
    case TurnEnds(past) => TurnEndIsDue(s, past, lifecycle);
    case Lifecycle(uuid, change) =>
      if lifecycle {
        LifecycleIsDue(s, uuid, change, lifecycle);
      } else {
        NothingIsDue(s, uuid, change);
      }
    case CompactDone(ok, note) => CompactDoneIsDue(s, ok, note, lifecycle);
    case ToolUsed(past, settled) => ToolUsedIsDue(s, past, settled, lifecycle);
    case ResultArrives(hookStopped) => ResultIsDue(s, hookStopped, lifecycle);
    case _ => OtherIsDue(s, e, lifecycle);
  }

  /** Over every run a compact is due, and a turn open, exactly as the events say. */
  lemma {:induction false} DueAsEventsSay(events: seq<Event>, lifecycle: bool)
    ensures var s := Run(events, lifecycle);
            (s.autoDue <==> CompactIsDue(events, lifecycle)) && (s.turnOpen <==> TurnIsOpen(events, lifecycle))
  {
    if events != [] {
      var front := events[..|events| - 1];
      DueAsEventsSay(front, lifecycle);
      RunKeeps(front, lifecycle);
      StepIsDue(Run(front, lifecycle), events[|events| - 1], lifecycle);
    }
  }

  /** After any run the next event begins automatic compacts and hands prompts on only as said. */
  lemma CompactsBeginWhenDue(events: seq<Event>, e: Event, lifecycle: bool)
    ensures var s, t := Run(events, lifecycle), Run(events + [e], lifecycle);
            var due, open := CompactIsDue(events, lifecycle), TurnIsOpen(events, lifecycle);
      && (t.compacting == Some(FromResult) && s.compacting != t.compacting
          <==> && e.TurnEnds? && s.pump == EndingTurn && s.compacting.None? && (e.past || due)
               && !HasUnstarted(s, lifecycle))
      && (forall u :: t.compacting == Some(FromSend(u)) && s.compacting != t.compacting ==>
            due && !open && (Prompt(u) in s.inputs || e == Accept(Prompt(u))))
      && (forall u :: HandsOn(s, t, u) ==>
            || (s.compacting == Some(FromSend(u)) && e.CompactDone?)
            || (s.compacting.Some? && GoesLive(s, e))
            || (if e.TurnEnds? then !due && !e.past else !due || open))
  {
    assert (events + [e])[..|events|] == events;
    DueAsEventsSay(events, lifecycle);
    RunKeeps(events, lifecycle);
    StepIsDue(Run(events, lifecycle), e, lifecycle);
  }

  // ----- What is outstanding -----

  /** The CLI's report on a prompt it took; a start or completion only of one it began. */
  predicate Reports(s: State, e: Event, lifecycle: bool, uuid: Uuid) {
    && lifecycle && e.Lifecycle? && e.uuid == uuid && s.pump == Idle && uuid in s.gen.read
    && (e.change.Cancelled? || uuid in s.log.settled)
  }

  /** A turn ends: by its end, or by the end of a mid-turn compact. */
  predicate EndsTurn(s: State, e: Event) {
    || (e.TurnEnds? && s.pump == EndingTurn)
    || (e.CompactDone? && s.compacting == Some(MidTurn) && Fresh(s, e.note))
  }

  /** The outstanding prompt has its answer: reported over, or its turn ended, unless it was yet to start. */
  predicate SettledBy(s: State, e: Event, lifecycle: bool, uuid: Uuid)
    requires uuid in s.sent
  {
    || (Reports(s, e, lifecycle, uuid) && !e.change.Started?)
    || (EndsTurn(s, e) && !(lifecycle && !s.sent[uuid]))
  }

  /** What the step passes to the generation. */
  function PassedOn(s: State, t: State): seq<Uuid> {
    if |s.log.passed| <= |t.log.passed| then t.log.passed[|s.log.passed|..] else []
  }

  /** A prompt or note is outstanding since it was passed, until it has its answer. */
  ghost predicate IsOutstanding(events: seq<Event>, lifecycle: bool, uuid: Uuid) {
    events != [] &&
    var front, last := events[..|events| - 1], events[|events| - 1];
    var s := Run(front, lifecycle);
    || uuid in PassedOn(s, Run(events, lifecycle))
    || (IsOutstanding(front, lifecycle, uuid)
        && !(Reports(s, last, lifecycle, uuid) && !last.change.Started?)
        && !(EndsTurn(s, last) && !(lifecycle && !HasStarted(front, lifecycle, uuid))))
  }

  /** And the CLI reported its start since. */
  ghost predicate HasStarted(events: seq<Event>, lifecycle: bool, uuid: Uuid) {
    events != [] &&
    var front, last := events[..|events| - 1], events[|events| - 1];
    var s := Run(front, lifecycle);
    && uuid !in PassedOn(s, Run(events, lifecycle)) && IsOutstanding(front, lifecycle, uuid)
    && (HasStarted(front, lifecycle, uuid) || (Reports(s, last, lifecycle, uuid) && last.change.Started?))
  }

  ghost predicate SentStep(s: State, e: Event, lifecycle: bool, t: State, uuid: Uuid) {
    && (uuid in t.sent <==> uuid in PassedOn(s, t) || (uuid in s.sent && !SettledBy(s, e, lifecycle, uuid)))
    && (uuid in t.sent ==>
          (t.sent[uuid] <==>
             && uuid !in PassedOn(s, t) && uuid in s.sent
             && (s.sent[uuid] || (Reports(s, e, lifecycle, uuid) && e.change.Started?))))
  }

  ghost predicate SentMore(s: State, t: State, uuid: Uuid) {
    && |s.log.passed| <= |t.log.passed|
    && (uuid in t.sent <==> uuid in PassedOn(s, t) || uuid in s.sent)
    && (uuid in t.sent ==> (t.sent[uuid] <==> uuid !in PassedOn(s, t) && uuid in s.sent && s.sent[uuid]))
  }

  lemma HandOnSends(s: State, prompt: Uuid, uuid: Uuid)
    ensures SentMore(s, HandOn(s, prompt), uuid) && PassedOn(s, HandOn(s, prompt)) == [prompt]
  {
  }

  lemma AdvanceSends(s: State, uuid: Uuid)
    ensures SentMore(s, StartNext(s), uuid)
  {
    if !Blocked(s) && s.inputs != [] && s.inputs[0].Prompt? {
      HandOnSends(s.(inputs := s.inputs[1..]), s.inputs[0].uuid, uuid);
    }
  }

  lemma AcceptSends(s: State, input: Input, lifecycle: bool, uuid: Uuid)
    ensures SentStep(s, Accept(input), lifecycle, AcceptStep(s, input), uuid)
  {
    var t := s.(log := s.log.(accepted := s.log.accepted + [input]));
    AdvanceSends(t.(inputs := t.inputs + [input]), uuid);
    HandOnSends(t, input.uuid, uuid);
    assert input.uuid in HandOn(t, input.uuid).sent;
  }

  lemma TurnEndSends(s: State, past: bool, lifecycle: bool, uuid: Uuid)
    ensures SentStep(s, TurnEnds(past), lifecycle, TurnEndStep(s, past, lifecycle), uuid)
  {
    var t := s.(turnOpen := false, sent := Outstanding(s.sent, lifecycle), pump := Idle);
    AdvanceSends(t, uuid);
    AdvanceSends(t.(autoDue := true), uuid);
  }

  lemma LifecycleSends(s: State, about: Uuid, change: Change, uuid: Uuid)
    ensures SentStep(s, Lifecycle(about, change), true, LifecycleStep(s, about, change), uuid)
  {
    var t := if change.Cancelled? then s.(log := s.log.(settled := s.log.settled + {about})) else s;
    AdvanceSends(t, uuid);
    AdvanceSends(t.(sent := s.sent[about := true]), uuid);
    AdvanceSends(t.(sent := s.sent - {about}), uuid);
  }

  lemma MidTurnSends(s: State, ok: bool, note: Uuid, lifecycle: bool, uuid: Uuid)
    requires s.compacting == Some(MidTurn)
    ensures SentStep(s, CompactDone(ok, note), lifecycle, CompactDoneStep(s, ok, note, lifecycle), uuid)
  {
    if Fresh(s, note) {
      assert PassedOn(s, CompactDoneStep(s, ok, note, lifecycle)) == [note];
    }
  }

  lemma SendingDoneSends(s: State, ok: bool, note: Uuid, lifecycle: bool, uuid: Uuid)
    requires s.compacting.Some? && s.compacting.value.FromSend?
    ensures SentStep(s, CompactDone(ok, note), lifecycle, CompactDoneStep(s, ok, note, lifecycle), uuid)
  {
    var t, prompt := Swapped(s, ok), s.compacting.value.prompt;
    SendAfterCompact(s, ok, prompt);
    HandOnSends(t, prompt, uuid);
    assert PassedOn(s, HandOn(t, prompt)) == [prompt];
  }

  lemma TurnDoneSends(s: State, ok: bool, note: Uuid, lifecycle: bool, uuid: Uuid)
    requires s.compacting in {None, Some(Manual), Some(FromResult)}
    ensures SentStep(s, CompactDone(ok, note), lifecycle, CompactDoneStep(s, ok, note, lifecycle), uuid)
  {
    if s.compacting.Some? {
      AdvanceSends(Swapped(s, ok), uuid);
    }
  }

  lemma StepSends(s: State, e: Event, lifecycle: bool, uuid: Uuid)
    ensures SentStep(s, e, lifecycle, Step(s, e, lifecycle), uuid)
  {
    match e
    case Accept(input) => AcceptSends(s, input, lifecycle, uuid);
    case TurnEnds(past) => TurnEndSends(s, past, lifecycle, uuid);
    case Lifecycle(about, change) =>
      if lifecycle {
        LifecycleSends(s, about, change, uuid);
      }
    case CompactDone(ok, note) =>
      match s.compacting {
        case Some(MidTurn) => MidTurnSends(s, ok, note, lifecycle, uuid);
        case Some(FromSend(_)) => SendingDoneSends(s, ok, note, lifecycle, uuid);
        case _ => TurnDoneSends(s, ok, note, lifecycle, uuid);
      }
    case _ => assert Step(s, e, lifecycle).sent == s.sent && PassedOn(s, Step(s, e, lifecycle)) == [];
  }

  /** Over every run exactly those prompts and notes are outstanding, and started, that the events say. */
  lemma {:induction false} OutstandingAsEventsSay(events: seq<Event>, lifecycle: bool, uuid: Uuid)
    ensures var s := Run(events, lifecycle);
      && (uuid in s.sent <==> IsOutstanding(events, lifecycle, uuid))
      && (uuid in s.sent ==> (s.sent[uuid] <==> HasStarted(events, lifecycle, uuid)))
  {
    if events != [] {
      var front := events[..|events| - 1];
      OutstandingAsEventsSay(front, lifecycle, uuid);
      StepSends(Run(front, lifecycle), events[|events| - 1], lifecycle, uuid);
    }
  }
}
