/**
 The durable record of one thread's background work: items, carried results and handoff
 generations. Each method updates the tables in place; the function of the same meaning
 says what the tables become, and the other continuity modules reason about the functions.
 */
module ContinuityStore {
  import opened Basics
  import opened PlainText
  import EventKeys

  datatype Family = Agent | Workflow | BackgroundShell | Monitor | ScheduledWakeup
  datatype Outcome = Completed | Failed | TimedOut | Cancelled | Killed | Stopped | OutcomeUnknown
  datatype ItemState = Active | Unknown | Terminal
  datatype CarryMode = Adopt | Reconstruct | Rearm | Unqualified
  datatype Operation = Status | Output | Stop
  datatype GenerationState = Open | Closed | Superseded

  /** Relaunch outputs and result copies have paths of their own; a copy's name is unique to its launch. */
  datatype Path = Fence(name: string) | CopyOf(launchId: string) | Elsewhere(name: string)

  datatype Process = Process(pid: int, bootId: string, starttime: string)

  /** What a rollout told about how an item can be continued. */
  datatype Continuation = Continuation(outputFile: Option<string>, runId: Option<string>, scriptPath: Option<string>,
                                       transcriptDir: Option<string>, taskProcess: Option<Process>)

  datatype Identity =
    | PosixOutput(path: Path, dev: string, ino: string)
    | Win32Output(path: Path, volumeId: string, fileId: string)
    | AgentTranscript(agentId: string, path: Path)
    | WorkflowRun(runId: string, scriptPath: Path, journalPath: Path)
    | ScheduledTime(toolUseId: string, scheduledForMs: int)
    | MonitorLaunch(toolUseId: string, rolloutPath: Path)

  datatype Relaunch = Relaunch(outputPath: Path, output: Identity, process: Option<Process>)

  datatype Work = Work(family: Family, labelText: string, taskId: Option<string>, toolUseId: Option<string>,
                       scheduledForMs: Option<int>)

  datatype Ending = Ending(outcome: Outcome, evidence: string, observedAtMs: int)

  datatype Item = Item(work: Work, generation: nat, state: ItemState, carryMode: CarryMode, operations: set<Operation>,
                       continuation: Option<Continuation>, identity: Option<Identity>, relaunch: Option<Relaunch>,
                       ending: Option<Ending>, eventsDelivered: nat, createdAtMs: int, updatedAtMs: int)

  datatype Artifact =
    | AdoptedOutput(path: Path)
    | RelaunchOutput(path: Path)
    | OwnedCopy(path: Path, bytes: nat, truncated: bool)

  datatype CarriedResult = CarriedResult(generation: nat, family: Family, labelText: string, outcome: Outcome,
                                         evidence: string, artifact: Option<Artifact>, observedAtMs: int,
                                         delivered: bool, createdAtMs: int)

  datatype Generation = Generation(oldSessionId: string, members: set<string>, state: GenerationState,
                                   createdAtMs: int, updatedAtMs: int)

  datatype Tables = Tables(items: map<string, Item>, results: map<string, CarriedResult>,
                           generations: map<nat, Generation>)

  const MAX_RESULT_EVIDENCE_CHARS: nat := 160
  const NOTHING_KNOWN := Continuation(None, None, None, None, None)

  // ----- What a row must be for the store to read it back -----

  predicate IsProcess(p: Process) {
    p.pid > 0 && p.bootId != "" && p.starttime != ""
  }

  predicate IsIdentity(i: Identity) {
    match i
    case PosixOutput(path, dev, ino) => path != Elsewhere("") && dev != "" && ino != ""
    case Win32Output(path, volumeId, fileId) => path != Elsewhere("") && volumeId != "" && fileId != ""
    case AgentTranscript(agentId, path) => agentId != "" && path != Elsewhere("")
    case WorkflowRun(runId, scriptPath, journalPath) =>
      runId != "" && scriptPath != Elsewhere("") && journalPath != Elsewhere("")
    case ScheduledTime(toolUseId, _) => toolUseId != ""
    case MonitorLaunch(toolUseId, rolloutPath) => toolUseId != "" && rolloutPath != Elsewhere("")
  }

  predicate IsContinuation(c: Continuation) {
    && c != NOTHING_KNOWN && c.outputFile != Some("") && c.runId != Some("") && c.scriptPath != Some("")
    && c.transcriptDir != Some("")
    && (c.taskProcess.Some? ==> IsProcess(c.taskProcess.value))
  }

  predicate ItemParses(i: Item) {
    && (i.state.Terminal? <==> i.ending.Some?)
    && (i.carryMode.Unqualified? <==> i.identity.None?)
    && (i.identity.Some? ==> IsIdentity(i.identity.value))
    && (i.continuation.Some? ==> IsContinuation(i.continuation.value))
    && (i.relaunch.Some? ==> IsIdentity(i.relaunch.value.output))
  }

  ghost predicate RowsParse(t: Tables) {
    && (forall id :: id in t.items ==> ItemParses(t.items[id]))
    && (forall id :: id in t.results ==> t.results[id].generation >= 1)
  }

  // ----- What is recorded about one item -----

  /** A fact once known stays; an empty string says nothing. */
  function Learn(known: Option<string>, learned: Option<string>): Option<string> {
    if known.None? && learned.Some? && learned.value != "" then learned else known
  }

  function Merged(recorded: Option<Continuation>, learned: Option<Continuation>): Option<Continuation> {
    if learned.None? then recorded
    else
      var was, now := recorded.GetOr(NOTHING_KNOWN), learned.value;
      var out := Continuation(Learn(was.outputFile, now.outputFile), Learn(was.runId, now.runId),
                              Learn(was.scriptPath, now.scriptPath), Learn(was.transcriptDir, now.transcriptDir),
                              if was.taskProcess.None? && now.taskProcess.Some? && IsProcess(now.taskProcess.value)
                              then now.taskProcess else was.taskProcess);
      if out == NOTHING_KNOWN then None else Some(out)
  }

  /** The output file an item owns: its relaunch's, or the one it was adopted by. */
  function OwnedOutput(i: Item): Option<(Path, Identity)> {
    if i.relaunch.Some? then Some((i.relaunch.value.outputPath, i.relaunch.value.output))
    else if i.identity.Some? && (i.identity.value.PosixOutput? || i.identity.value.Win32Output?)
    then Some((i.identity.value.path, i.identity.value))
    else None
  }

  function ArtifactOf(i: Item): Option<Artifact> {
    var owned := OwnedOutput(i);
    if owned.None? then None
    else if i.relaunch.Some? then Some(RelaunchOutput(owned.value.0))
    else Some(AdoptedOutput(owned.value.0))
  }

  function ResultOf(i: Item, e: Ending): CarriedResult {
    CarriedResult(i.generation, i.work.family, i.work.labelText, e.outcome,
                  OneLine(e.evidence, MAX_RESULT_EVIDENCE_CHARS), ArtifactOf(i), e.observedAtMs, false, e.observedAtMs)
  }

  // ----- What each store method makes of the tables -----

  predicate IsUnfinished(t: Tables, id: string) {
    id in t.items && !t.items[id].state.Terminal?
  }

  function Launched(t: Tables, id: string, work: Work, learned: Option<Continuation>, nowMs: int): Tables {
    if id in t.items then t
    else t.(items := t.items[id := Item(work, 0, Active, Unqualified, {}, Merged(None, learned), None, None, None, 0,
                                        nowMs, nowMs)])
  }

  function Progressed(t: Tables, id: string, learned: Option<Continuation>, nowMs: int): Tables {
    if !IsUnfinished(t, id) then t
    else
      var i := t.items[id];
      t.(items := t.items[id := i.(continuation := Merged(i.continuation, learned), updatedAtMs := nowMs)])
  }

  function ProcessNoted(t: Tables, id: string, process: Process, nowMs: int): Tables {
    if IsUnfinished(t, id) && t.items[id].continuation.GetOr(NOTHING_KNOWN).taskProcess.None?
    then Progressed(t, id, Some(NOTHING_KNOWN.(taskProcess := Some(process))), nowMs)
    else t
  }

  function Ended(t: Tables, id: string, e: Ending): Tables {
    if !IsUnfinished(t, id) then t
    else
      var i := t.items[id];
      var items := t.items[id := i.(state := Terminal, ending := Some(e), updatedAtMs := e.observedAtMs)];
      if i.generation > 0 && id !in t.results then t.(items := items, results := t.results[id := ResultOf(i, e)])
      else t.(items := items)
  }

  function Verified(t: Tables, id: string, verified: bool, nowMs: int): Tables {
    if !IsUnfinished(t, id) then t
    else t.(items := t.items[id := t.items[id].(state := if verified then Active else Unknown, updatedAtMs := nowMs)])
  }

  function Qualified(t: Tables, id: string, mode: CarryMode, operations: set<Operation>, identity: Identity,
                     nowMs: int): Tables {
    if !IsUnfinished(t, id) || mode.Unqualified? || !IsIdentity(identity) then t
    else t.(items := t.items[id := t.items[id].(carryMode := mode, operations := operations, identity := Some(identity),
                                                updatedAtMs := nowMs)])
  }

  function Relaunched(t: Tables, id: string, relaunch: Relaunch, nowMs: int): Tables {
    if !IsUnfinished(t, id) || t.items[id].relaunch.Some? || !IsIdentity(relaunch.output) then t
    else
      var operations := {Status, Output} + (if relaunch.process.Some? then {Stop} else {});
      t.(items := t.items[id := t.items[id].(relaunch := Some(relaunch), operations := operations,
                                             updatedAtMs := nowMs)])
  }

  /** What acknowledging one key changes: a monitor's offset, or a pending result. */
  function Acknowledged(t: Tables, key: string): Tables {
    match EventKeys.Parsed(key)
    case Some(e) =>
      if e.launchId in t.items && t.items[e.launchId].relaunch.Some?
         && t.items[e.launchId].eventsDelivered < e.endOffset
      then t.(items := t.items[e.launchId := t.items[e.launchId].(eventsDelivered := e.endOffset)])
      else t
    case None =>
      if key in t.results && !t.results[key].delivered
      then t.(results := t.results[key := t.results[key].(delivered := true)])
      else t
  }

  function AcknowledgedAll(t: Tables, keys: seq<string>): Tables
    decreases keys
  {
    if keys == [] then t else AcknowledgedAll(Acknowledged(t, keys[0]), keys[1..])
  }

  /** Those of the keys that change something when they are acknowledged in turn. */
  function Changing(t: Tables, keys: seq<string>): seq<string>
    decreases keys
  {
    if keys == [] then []
    else (if Acknowledged(t, keys[0]) != t then [keys[0]] else []) + Changing(Acknowledged(t, keys[0]), keys[1..])
  }

  /** A result's name changes something exactly when that result was pending. */
  lemma {:induction false} ResultChangesIff(t: Tables, keys: seq<string>, id: string)
    requires EventKeys.Parsed(id).None?
    ensures id in Changing(t, keys) <==> id in keys && id in t.results && !t.results[id].delivered
    decreases keys
  {
    if keys != [] {
      var next := Acknowledged(t, keys[0]);
      ResultChangesIff(next, keys[1..], id);
      assert id in keys <==> id == keys[0] || id in keys[1..];
      if id == keys[0] && id in t.results && !t.results[id].delivered {
        assert next.results[id].delivered;
      } else {
        assert (id in next.results <==> id in t.results) && (id in t.results ==> next.results[id] == t.results[id]);
      }
    }
  }

  function Copied(t: Tables, id: string, copy: Artifact): Tables
    requires copy.OwnedCopy?
  {
    if id in t.results then t.(results := t.results[id := t.results[id].(artifact := Some(copy))]) else t
  }

  function Deleted(t: Tables, id: string): Tables {
    if id in t.items && t.items[id].state.Terminal? then t.(items := t.items - {id}) else t
  }

  function WithoutObsolete(t: Tables): Tables {
    if t.items == map[] then t.(generations := map[]) else t
  }

  /** The newest generation's number, or 0. */
  ghost function Latest(generations: set<nat>): (n: nat)
    ensures (n == 0 || n in generations) && forall g :: g in generations ==> g <= n
    decreases generations
  {
    if generations == {} then 0
    else
      var g :| g in generations;
      assert forall x :: x in generations ==> x == g || x in generations - {g};
      Max(g, Latest(generations - {g}))
  }

  function Stamp(t: Tables, id: string, n: nat, ids: set<string>, nowMs: int): Item
    requires id in t.items
  {
    var i := t.items[id];
    if id in ids && i.generation < n then i.(generation := n, updatedAtMs := nowMs) else i
  }

  function Supersede(g: Generation, nowMs: int): Generation {
    if g.state.Open? then g.(state := Superseded, updatedAtMs := nowMs) else g
  }

  /** Generation n is opened over the given launches, older open ones are superseded. */
  function Allocated(t: Tables, n: nat, oldSessionId: string, ids: set<string>, nowMs: int): Tables {
    t.(items := map id | id in t.items :: Stamp(t, id, n, ids, nowMs),
       generations := (map g | g in t.generations ::
                         if g < n then Supersede(t.generations[g], nowMs) else t.generations[g])
                      [n := Generation(oldSessionId, ids, Open, nowMs, nowMs)])
  }

  function StateSet(t: Tables, n: nat, state: GenerationState, nowMs: int): Tables {
    if n in t.generations
    then t.(generations := t.generations[n := t.generations[n].(state := state, updatedAtMs := nowMs)])
    else t
  }

  datatype Answer = NoItem | Malformed | Stored(item: Item)

  class Store {
    var items: map<string, Item>
    var results: map<string, CarriedResult>
    var generations: map<nat, Generation>

    constructor ()
      ensures Valid() && Now() == Tables(map[], map[], map[])
    {
      items, results, generations := map[], map[], map[];
    }

    ghost function Now(): Tables
      reads this
    {
      Tables(items, results, generations)
    }

    /** Every row parses, so reading one back never throws. */
    ghost predicate Valid()
      reads this
    {
      RowsParse(Now())
    }

    method RecordLaunch(id: string, work: Work, learned: Option<Continuation>, nowMs: int)
      returns (item: Item, inserted: bool)
      requires Valid()
      modifies `items
      ensures Valid() && Now() == Launched(old(Now()), id, work, learned, nowMs)
      ensures id in items && item == items[id] && (inserted <==> id !in old(items))
    {
      if id in items {
        return items[id], false;
      }
      item := Item(work, 0, Active, Unqualified, {}, Merged(None, learned), None, None, None, 0, nowMs, nowMs);
      items, inserted := items[id := item], true;
    }

    method RecordProgress(id: string, learned: Option<Continuation>, nowMs: int)
      requires Valid()
      modifies `items
      ensures Valid() && Now() == Progressed(old(Now()), id, learned, nowMs)
    {
      if id !in items {
        return;
      }
      var merged := Merged(items[id].continuation, learned);
      if !items[id].state.Terminal? {
        items := items[id := items[id].(continuation := merged, updatedAtMs := nowMs)];
      }
    }

    method SetTaskProcess(id: string, process: Process, nowMs: int)
      requires Valid()
      modifies `items
      ensures Valid() && Now() == ProcessNoted(old(Now()), id, process, nowMs)
    {
      if id !in items || items[id].state.Terminal? {
        return;
      }
      var known := items[id].continuation;
      if known.Some? && known.value.taskProcess.Some? {
        return;
      }
      var merged := Merged(known, Some(NOTHING_KNOWN.(taskProcess := Some(process))));
      items := items[id := items[id].(continuation := merged, updatedAtMs := nowMs)];
    }

    /** The first terminal outcome wins, and a carried item's outcome is made durable with it. */
    method RecordTerminal(id: string, e: Ending) returns (applied: Option<bool>)
      requires Valid()
      modifies `items, `results
      ensures Valid() && Now() == Ended(old(Now()), id, e)
      ensures applied == if id in old(items) then Some(IsUnfinished(old(Now()), id)) else None
    {
      if id !in items {
        return None;
      }
      if items[id].state.Terminal? {
        return Some(false);
      }
      var item := items[id].(state := Terminal, ending := Some(e), updatedAtMs := e.observedAtMs);
      items := items[id := item];
      if item.generation > 0 && id !in results {
        results := results[id := ResultOf(item, e)];
      }
      applied := Some(true);
    }

    method SetVerified(id: string, verified: bool, nowMs: int)
      requires Valid()
      modifies `items
      ensures Valid() && Now() == Verified(old(Now()), id, verified, nowMs)
    {
      if id in items && !items[id].state.Terminal? {
        items := items[id := items[id].(state := if verified then Active else Unknown, updatedAtMs := nowMs)];
      }
    }

    method SetCarryMode(id: string, mode: CarryMode, operations: set<Operation>, identity: Identity, nowMs: int)
      returns (a: Answer)
      requires Valid()
      modifies `items
      ensures Valid() && Now() == Qualified(old(Now()), id, mode, operations, identity, nowMs)
      ensures id !in items ==> a == NoItem
      ensures id in items ==> a == if mode.Unqualified? || !IsIdentity(identity) then Malformed else Stored(items[id])
    {
      if id !in items {
        return NoItem;
      }
      if mode.Unqualified? || !IsIdentity(identity) {
        return Malformed;
      }
      if !items[id].state.Terminal? {
        items := items[id := items[id].(carryMode := mode, operations := operations, identity := Some(identity),
                                        updatedAtMs := nowMs)];
      }
      a := Stored(items[id]);
    }

    /** The first relaunch recorded for an item stays. */
    method SetRelaunched(id: string, relaunch: Relaunch, nowMs: int) returns (a: Answer)
      requires Valid()
      modifies `items
      ensures Valid() && Now() == Relaunched(old(Now()), id, relaunch, nowMs)
      ensures id !in items ==> a == NoItem
      ensures id in items ==> a == if IsIdentity(relaunch.output) then Stored(items[id]) else Malformed
    {
      if id !in items {
        return NoItem;
      }
      if !IsIdentity(relaunch.output) {
        return Malformed;
      }
      var operations := {Status, Output} + (if relaunch.process.Some? then {Stop} else {});
      if items[id].relaunch.None? && !items[id].state.Terminal? {
        items := items[id := items[id].(relaunch := Some(relaunch), operations := operations, updatedAtMs := nowMs)];
      }
      a := Stored(items[id]);
    }

    method Acknowledge(key: string) returns (changed: bool)
      requires Valid()
      modifies `items, `results
      ensures Valid() && Now() == Acknowledged(old(Now()), key) && (changed <==> Now() != old(Now()))
    {
      changed := false;
      var event := EventKeys.Parsed(key);
      if event.Some? {
        var id, endOffset := event.value.launchId, event.value.endOffset;
        if id in items && items[id].relaunch.Some? && items[id].eventsDelivered < endOffset {
          changed := true;
          assert items[id].eventsDelivered != endOffset;
          items := items[id := items[id].(eventsDelivered := endOffset)];
        }
      } else if key in results && !results[key].delivered {
        changed := true;
        results := results[key := results[key].(delivered := true)];
      }
    }

    /** Marks each distinct key once; the answer lists those that changed something. */
    method MarkDelivered(keys: seq<string>) returns (delivered: seq<string>)
      requires Valid()
      modifies `items, `results
      ensures Valid() && Now() == AcknowledgedAll(old(Now()), Distinct(keys))
      ensures delivered == Changing(old(Now()), Distinct(keys))
    {
      delivered := [];
      var todo := Distinct(keys);
      while todo != []
        invariant Valid() && AcknowledgedAll(Now(), todo) == AcknowledgedAll(old(Now()), Distinct(keys))
        invariant delivered + Changing(Now(), todo) == Changing(old(Now()), Distinct(keys))
      {
        ghost var rest := Changing(Acknowledged(Now(), todo[0]), todo[1..]);
        ConcatAssociative(delivered, [todo[0]], rest);
        assert [] + rest == rest;
        var changed := Acknowledge(todo[0]);
        if changed {
          delivered := delivered + [todo[0]];
        }
        todo := todo[1..];
      }
    }

    method SetResultArtifact(id: string, copy: Artifact) returns (changed: bool)
      requires Valid() && copy.OwnedCopy?
      modifies `results
      ensures Valid() && Now() == Copied(old(Now()), id, copy) && (changed <==> id in old(results))
    {
      changed := id in results;
      if changed {
        results := results[id := results[id].(artifact := Some(copy))];
      }
    }

    method DeleteTerminalItem(id: string) returns (removed: bool)
      requires Valid()
      modifies `items
      ensures Valid() && Now() == Deleted(old(Now()), id)
      ensures removed <==> id in old(items) && old(items)[id].state.Terminal?
    {
      removed := id in items && items[id].state.Terminal?;
      if removed {
        items := items - {id};
      }
    }

    method RemoveObsoleteGenerations() returns (removed: nat)
      requires Valid()
      modifies `generations
      ensures Valid() && Now() == WithoutObsolete(old(Now()))
      ensures removed == |old(generations)| - |generations|
    {
      removed := 0;
      if |items| == 0 {
        removed := |generations|;
        generations := map[];
      }
    }

    method AllocateGeneration(oldSessionId: string, ids: set<string>, nowMs: int) returns (n: nat)
      requires Valid()
      modifies `items, `generations
      ensures Valid() && n == Latest(old(generations).Keys) + 1
      ensures Now() == Allocated(old(Now()), n, oldSessionId, ids, nowMs)
    {
      var latest := LatestGeneration();
      n := latest + 1;
      generations := (map g | g in generations :: if g < n then Supersede(generations[g], nowMs) else generations[g])
                     [n := Generation(oldSessionId, ids, Open, nowMs, nowMs)];
      items := map id | id in items ::
               if id in ids && items[id].generation < n then items[id].(generation := n, updatedAtMs := nowMs)
               else items[id];
    }

    method LatestGeneration() returns (n: nat)
      ensures n == Latest(generations.Keys)
    {
      n := 0;
      var todo := generations.Keys;
      while todo != {}
        invariant todo <= generations.Keys && (n == 0 || n in generations)
        invariant forall g :: g in generations ==> g in todo || g <= n
      {
        var g :| g in todo;
        todo, n := todo - {g}, Max(n, g);
      }
    }

    method SetGenerationState(n: nat, state: GenerationState, nowMs: int)
      requires Valid()
      modifies `generations
      ensures Valid() && Now() == StateSet(old(Now()), n, state, nowMs)
    {
      if n in generations {
        generations := generations[n := generations[n].(state := state, updatedAtMs := nowMs)];
      }
    }
  }
}
