/**
 What a tracked item's row says of its life. Over any run, its state is what the last
 verification said, its qualification the last one taken, its relaunch and its process the
 first ones recorded, each from before the item ended, and its ending the first one.
 */
module ItemLives {
  import opened Basics
  import opened ContinuityStore
  import opened Snapshots
  import opened ContinuityRuns
  import Cleanup

  predicate IsEnd(s: Step, id: string) {
    s.action.End? && s.action.id == id
  }

  /** The item's first ending among the steps. */
  function EndOf(steps: seq<Step>, id: string): Option<Ending>
    decreases steps
  {
    if steps == [] then None
    else if IsEnd(steps[0], id) then Some(Ending(steps[0].action.outcome, steps[0].action.evidence, steps[0].nowMs))
    else EndOf(steps[1..], id)
  }

  /** The steps before that. */
  function BeforeEnd(steps: seq<Step>, id: string): seq<Step>
    decreases steps
  {
    if steps == [] || IsEnd(steps[0], id) then [] else [steps[0]] + BeforeEnd(steps[1..], id)
  }

  /** What the last verification of the item said, if there was one. */
  function LastVerdict(steps: seq<Step>, id: string): Option<bool>
    decreases steps
  {
    if steps == [] then None
    else
      var last := steps[|steps| - 1];
      if last.action.Verify? && last.action.id == id then Some(last.action.verified)
      else LastVerdict(steps[..|steps| - 1], id)
  }

  /** The last qualification the store takes: by a mode that carries, with a whole identity. */
  function LastQualification(steps: seq<Step>, id: string): Option<(CarryMode, Identity)>
    decreases steps
  {
    if steps == [] then None
    else
      var a := steps[|steps| - 1].action;
      if a.Qualify? && a.id == id && !a.mode.Unqualified? && IsIdentity(a.identity) then Some((a.mode, a.identity))
      else LastQualification(steps[..|steps| - 1], id)
  }

  function FirstRelaunch(steps: seq<Step>, id: string): Option<Relaunch>
    decreases steps
  {
    if steps == [] then None
    else
      var a := steps[0].action;
      if a.RecordRelaunch? && a.id == id && IsIdentity(a.relaunch.output) then Some(a.relaunch)
      else FirstRelaunch(steps[1..], id)
  }

  /** What can be done with the item: as last qualified, or as its relaunch allows if that came later. */
  function LastOperations(steps: seq<Step>, id: string, relaunched: bool): Option<set<Operation>>
    decreases steps
  {
    if steps == [] then None
    else
      var before, a := steps[..|steps| - 1], steps[|steps| - 1].action;
      if a.Qualify? && a.id == id && !a.mode.Unqualified? && IsIdentity(a.identity) then Some(a.operations)
      else if a.RecordRelaunch? && a.id == id && IsIdentity(a.relaunch.output) && !relaunched
              && FirstRelaunch(before, id).None?
      then Some(if a.relaunch.process.Some? then {Status, Output, Stop} else {Status, Output})
      else LastOperations(before, id, relaunched)
  }

  /** The process a step tells of, noted by itself or with other facts. */
  function ProcessTold(a: Action, id: string): Option<Process> {
    if a.NoteProcess? && a.id == id then Some(a.process)
    else if a.Progress? && a.id == id && a.learned.Some? then a.learned.value.taskProcess
    else None
  }

  function FirstProcess(steps: seq<Step>, id: string): Option<Process>
    decreases steps
  {
    if steps == [] then None
    else
      var told := ProcessTold(steps[0].action, id);
      if told.Some? && IsProcess(told.value) then told else FirstProcess(steps[1..], id)
  }

  function ProcessKnown(i: Item): Option<Process> {
    i.continuation.GetOr(NOTHING_KNOWN).taskProcess
  }

  function Or<T>(first: Option<T>, second: Option<T>): Option<T> {
    if first.Some? then first else second
  }

  function StateSaid(verdict: Option<bool>, state: ItemState): ItemState {
    if verdict.None? then state else if verdict.value then Active else Unknown
  }

  function Qualification(i: Item): Option<(CarryMode, Identity)> {
    if i.identity.Some? then Some((i.carryMode, i.identity.value)) else None
  }

  /** Over the steps of its open life, the later row says of the item what they told. */
  ghost predicate Tells(i: Item, steps: seq<Step>, id: string, now: Item) {
    && now.work == i.work && now.createdAtMs == i.createdAtMs
    && now.relaunch == Or(i.relaunch, FirstRelaunch(steps, id))
    && ProcessKnown(now) == Or(ProcessKnown(i), FirstProcess(steps, id))
    && Qualification(now) == Or(LastQualification(steps, id), Qualification(i))
    && now.operations == LastOperations(steps, id, i.relaunch.Some?).GetOr(i.operations)
  }

  /** The steps that record a fact of the item's own life. */
  predicate Records(a: Action, id: string) {
    && (a.Verify? || a.Qualify? || a.RecordRelaunch? || a.NoteProcess? || a.Progress? || a.End?)
    && a.id == id
  }

  /** The rows differ in generation, offset and update time at most. */
  predicate SameFacts(i: Item, now: Item) {
    now.(generation := i.generation, eventsDelivered := i.eventsDelivered, updatedAtMs := i.updatedAtMs) == i
  }

  predicate IsWide(a: Action) {
    a.Acknowledge? || a.Snapshot? || a.Clean?
  }

  /** The steps that are not about one item only move its offset or stamp it, or take it off once it ended. */
  lemma WideStep(t: Tables, s: Step, id: string)
    requires Sound(t) && id in t.items && IsWide(s.action)
    ensures IsUnfinished(t, id) ==> id in After(t, s).items
    ensures id in After(t, s).items ==>
              var i, now := t.items[id], After(t, s).items[id];
              now == if s.action.Acknowledge? then i.(eventsDelivered := now.eventsDelivered)
                     else if s.action.Snapshot? && now.generation != i.generation
                     then i.(generation := now.generation, updatedAtMs := s.nowMs)
                     else i
  {
    match s.action
    case Acknowledge(keys) => AcknowledgeStands(t, Distinct(keys));
    case Snapshot(oldSessionId) =>
      if MaySnapshot(t) {
        SnapshotStamps(t, oldSessionId, s.nowMs);
      }
    case Clean(k, files, outside) =>
      if k in t.items {
        Cleanup.CleaningIsLocal(t, files, k, outside);
      }
    case _ =>
  }

  lemma StepOnAnother(t: Tables, s: Step, id: string)
    requires id in t.items && !Records(s.action, id) && !IsWide(s.action)
    ensures id in After(t, s).items && After(t, s).items[id] == t.items[id]
  {
  }

  lemma RecordingStep(t: Tables, s: Step, id: string)
    requires id in t.items && Records(s.action, id)
    ensures id in After(t, s).items
    ensures var i, now := t.items[id], After(t, s).items[id];
      && now.eventsDelivered == i.eventsDelivered && now.generation == i.generation
      && (now == i || now.updatedAtMs == s.nowMs)
  {
  }

  lemma QuietStep(t: Tables, s: Step, id: string)
    requires Sound(t) && id in t.items && !Records(s.action, id)
    ensures id in After(t, s).items ==> SameFacts(t.items[id], After(t, s).items[id])
    ensures id in After(t, s).items ==>
              var i, now := t.items[id], After(t, s).items[id];
              now.(eventsDelivered := i.eventsDelivered) == i || now.updatedAtMs == s.nowMs
    ensures IsUnfinished(t, id) ==> id in After(t, s).items
  {
    if IsWide(s.action) {
      WideStep(t, s, id);
    } else {
      StepOnAnother(t, s, id);
    }
  }

  lemma OneStep(s: Step, id: string)
    ensures EndOf([s], id)
            == if IsEnd(s, id) then Some(Ending(s.action.outcome, s.action.evidence, s.nowMs)) else None
    ensures BeforeEnd([s], id) == if IsEnd(s, id) then [] else [s]
    ensures LastVerdict([s], id)
            == if s.action.Verify? && s.action.id == id then Some(s.action.verified) else None
  {
    assert [s][1..] == [] && [s][..0] == [];
  }

  lemma OneStepTells(s: Step, id: string)
    ensures var a := s.action;
      && FirstRelaunch([s], id)
         == (if a.RecordRelaunch? && a.id == id && IsIdentity(a.relaunch.output) then Some(a.relaunch) else None)
      && FirstProcess([s], id)
         == (if ProcessTold(a, id).Some? && IsProcess(ProcessTold(a, id).value) then ProcessTold(a, id) else None)
      && LastQualification([s], id)
         == if a.Qualify? && a.id == id && !a.mode.Unqualified? && IsIdentity(a.identity)
            then Some((a.mode, a.identity)) else None
  {
    assert [s][1..] == [] && [s][..0] == [];
  }

  lemma OneStepAllows(s: Step, id: string, relaunched: bool)
    ensures LastOperations([s], id, relaunched)
            == if s.action.Qualify? && LastQualification([s], id).Some? then Some(s.action.operations)
               else if s.action.RecordRelaunch? && FirstRelaunch([s], id).Some? && !relaunched
               then Some(if s.action.relaunch.process.Some? then {Status, Output, Stop} else {Status, Output})
               else None
  {
    OneStepTells(s, id);
    assert [s][..0] == [];
  }

  lemma NothingTells(i: Item, id: string)
    requires ItemParses(i)
    ensures Tells(i, [], id, i)
  {
  }

  lemma ProgressTells(t: Tables, s: Step, id: string)
    requires IsUnfinished(t, id) && (s.action.Progress? || s.action.NoteProcess?) && s.action.id == id
    ensures id in After(t, s).items
    ensures ProcessKnown(After(t, s).items[id]) == Or(ProcessKnown(t.items[id]), FirstProcess([s], id))
    ensures var i, now := t.items[id], After(t, s).items[id];
            now.(continuation := i.continuation, updatedAtMs := i.updatedAtMs) == i
  {
    OneStepTells(s, id);
  }

  /** One step on an open item. */
  lemma OpenItemStep(t: Tables, s: Step, id: string)
    requires Sound(t) && IsUnfinished(t, id)
    ensures var u := After(t, s);
      && id in u.items && u.items[id].ending == EndOf([s], id)
      && (!IsEnd(s, id) ==> u.items[id].state == StateSaid(LastVerdict([s], id), t.items[id].state))
      && Tells(t.items[id], BeforeEnd([s], id), id, u.items[id])
  {
    OneStep(s, id);
    OneStepTells(s, id);
    OneStepAllows(s, id, t.items[id].relaunch.Some?);
    if !Records(s.action, id) {
      QuietStep(t, s, id);
    } else if s.action.Progress? || s.action.NoteProcess? {
      ProgressTells(t, s, id);
    }
  }

  // ----- Over runs -----

  lemma {:induction false} VerdictsConcat(a: seq<Step>, b: seq<Step>, id: string)
    ensures LastVerdict(a + b, id) == Or(LastVerdict(b, id), LastVerdict(a, id))
    ensures LastQualification(a + b, id) == Or(LastQualification(b, id), LastQualification(a, id))
    decreases b
  {
    if b == [] {
      assert a + b == a;
    } else {
      assert (a + b)[..|a + b| - 1] == a + b[..|b| - 1];
      VerdictsConcat(a, b[..|b| - 1], id);
    }
  }

  lemma FirstOf(s: Step, steps: seq<Step>, id: string)
    ensures FirstRelaunch([s] + steps, id) == Or(FirstRelaunch([s], id), FirstRelaunch(steps, id))
    ensures FirstProcess([s] + steps, id) == Or(FirstProcess([s], id), FirstProcess(steps, id))
  {
    assert ([s] + steps)[1..] == steps && [s][1..] == [];
  }

  lemma {:induction false} OperationsConcat(s: Step, steps: seq<Step>, id: string, relaunched: bool)
    ensures LastOperations([s] + steps, id, relaunched)
            == Or(LastOperations(steps, id, relaunched || FirstRelaunch([s], id).Some?),
                  LastOperations([s], id, relaunched))
    decreases steps
  {
    if steps == [] {
      assert [s] + steps == [s];
    } else {
      var before := steps[..|steps| - 1];
      assert ([s] + steps)[..|steps|] == [s] + before;
      FirstOf(s, before, id);
      OperationsConcat(s, before, id, relaunched);
    }
  }

  lemma TellsOn(i: Item, s: Step, between: Item, steps: seq<Step>, id: string, now: Item)
    requires Tells(i, [s], id, between) && Tells(between, steps, id, now)
    ensures Tells(i, [s] + steps, id, now)
  {
    FirstOf(s, steps, id);
    VerdictsConcat([s], steps, id);
    OperationsConcat(s, steps, id, i.relaunch.Some?);
  }

  /** The item is never taken off the record on the way. */
  ghost predicate StaysTracked(t: Tables, steps: seq<Step>, id: string)
    decreases steps
  {
    id in t.items && (steps != [] ==> StaysTracked(After(t, steps[0]), steps[1..], id))
  }

  /** Once ended, a row keeps its facts for as long as it is there. */
  lemma {:induction false} EndedItemStays(t: Tables, steps: seq<Step>, id: string)
    requires Sound(t) && StaysTracked(t, steps, id) && t.items[id].state.Terminal?
    ensures id in AfterAll(t, steps).items && SameFacts(t.items[id], AfterAll(t, steps).items[id])
    decreases steps
  {
    if steps != [] {
      StepKeepsSound(t, steps[0]);
      if !Records(steps[0].action, id) {
        QuietStep(t, steps[0], id);
      }
      EndedItemStays(After(t, steps[0]), steps[1..], id);
    }
  }

  /** What the row of an item says after any run over which it stays tracked. */
  lemma {:induction false} RowTellsItsLife(t: Tables, steps: seq<Step>, id: string)
    requires Sound(t) && IsUnfinished(t, id) && StaysTracked(t, steps, id)
    ensures id in AfterAll(t, steps).items
    ensures var i, now, open := t.items[id], AfterAll(t, steps).items[id], BeforeEnd(steps, id);
      && now.ending == EndOf(steps, id)
      && now.state == (if EndOf(steps, id).Some? then Terminal else StateSaid(LastVerdict(open, id), i.state))
      && Tells(i, open, id, now)
    decreases steps
  {
    if steps == [] {
      NothingTells(t.items[id], id);
    } else {
      var s, rest, u := steps[0], steps[1..], After(t, steps[0]);
      StepKeepsSound(t, s);
      OpenItemStep(t, s, id);
      OneStep(s, id);
      if IsEnd(s, id) {
        EndedItemStays(u, rest, id);
      } else {
        RowTellsItsLife(u, rest, id);
        TellsOn(t.items[id], s, u.items[id], BeforeEnd(rest, id), id, AfterAll(t, steps).items[id]);
        VerdictsConcat([s], BeforeEnd(rest, id), id);
      }
    }
  }

  lemma StampOrOffsetStep(t: Tables, s: Step, id: string)
    requires Sound(t) && id in t.items && id in After(t, s).items
    ensures var i, now := t.items[id], After(t, s).items[id];
      && (now.eventsDelivered != i.eventsDelivered ==> s.action.Acknowledge?)
      && (now.generation != i.generation ==> s.action.Snapshot?)
  {
    if IsWide(s.action) {
      WideStep(t, s, id);
    } else if Records(s.action, id) {
      RecordingStep(t, s, id);
    } else {
      StepOnAnother(t, s, id);
    }
  }

  /** An offset is moved by acknowledging alone, and a stamp is put by a snapshot alone. */
  lemma {:induction false} StampsAndOffsetsCome(t: Tables, steps: seq<Step>, id: string)
    requires Sound(t) && StaysTracked(t, steps, id)
    ensures id in AfterAll(t, steps).items
    ensures var i, now := t.items[id], AfterAll(t, steps).items[id];
      && (now.eventsDelivered != i.eventsDelivered ==> exists s <- steps :: s.action.Acknowledge?)
      && (now.generation != i.generation ==> exists s <- steps :: s.action.Snapshot?)
    decreases steps
  {
    if steps != [] {
      var s, u := steps[0], After(t, steps[0]);
      FirstIsIn(steps);
      StepKeepsSound(t, s);
      StampOrOffsetStep(t, s, id);
      StampsAndOffsetsCome(u, steps[1..], id);
    }
  }

  /** What the row of a launched item says, from its launch on. */
  lemma RowTellsALaunchedLife(t: Tables, launch: Step, steps: seq<Step>, id: string)
    requires Sound(t) && launch.action.Launch? && launch.action.id == id && id !in t.items
    requires StaysTracked(After(t, launch), steps, id)
    ensures id in AfterAll(t, [launch] + steps).items
    ensures var now, open := AfterAll(t, [launch] + steps).items[id], BeforeEnd(steps, id);
      && now.work == launch.action.work && now.createdAtMs == launch.nowMs
      && now.ending == EndOf(steps, id)
      && now.state == (if EndOf(steps, id).Some? then Terminal else StateSaid(LastVerdict(open, id), Active))
      && now.relaunch == FirstRelaunch(open, id) && Qualification(now) == LastQualification(open, id)
      && now.operations == LastOperations(open, id, false).GetOr({})
      && (now.eventsDelivered > 0 ==> exists s <- steps :: s.action.Acknowledge?)
      && (now.generation > 0 ==> exists s <- steps :: s.action.Snapshot?)
  {
    assert ([launch] + steps)[1..] == steps;
    StepKeepsSound(t, launch);
    RowTellsItsLife(After(t, launch), steps, id);
    StampsAndOffsetsCome(After(t, launch), steps, id);
  }

  // ----- When a row was updated -----

  /** A step dates every row it changes, unless only the row's offset moved. */
  lemma ChangedRowIsDated(t: Tables, s: Step, id: string)
    requires Sound(t) && id in t.items && id in After(t, s).items
    ensures var i, now := t.items[id], After(t, s).items[id];
            now.(eventsDelivered := i.eventsDelivered) == i || now.updatedAtMs == s.nowMs
  {
    if Records(s.action, id) {
      RecordingStep(t, s, id);
    } else {
      QuietStep(t, s, id);
    }
  }
}
