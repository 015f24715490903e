/** What every run of launches, snapshots, closures, deliveries and cleanups keeps. */
module ContinuityRuns {
  import opened Basics
  import opened PlainText
  import opened ContinuityStore
  import opened Snapshots
  import Cleanup

  datatype Action =
    | Launch(id: string, work: Work, learned: Option<Continuation>)
    | Progress(id: string, learned: Option<Continuation>)
    | NoteProcess(id: string, process: Process)
    | End(id: string, outcome: Outcome, evidence: string)
    | Verify(id: string, verified: bool)
    | Qualify(id: string, mode: CarryMode, operations: set<Operation>, identity: Identity)
    | RecordRelaunch(id: string, relaunch: Relaunch)
    | Acknowledge(keys: seq<string>)
    | Snapshot(oldSessionId: string)
    | Close(generation: nat)
    | Clean(id: string, files: Cleanup.Files, outside: Cleanup.Outside)
    | DropGenerations

  datatype Step = Step(action: Action, nowMs: int)

  ghost function After(t: Tables, s: Step): Tables {
    match s.action
    case Launch(id, work, learned) => Launched(t, id, work, learned, s.nowMs)
    case Progress(id, learned) => Progressed(t, id, learned, s.nowMs)
    case NoteProcess(id, process) => ProcessNoted(t, id, process, s.nowMs)
    case End(id, outcome, evidence) => Ended(t, id, Ending(outcome, evidence, s.nowMs))
    case Verify(id, verified) => Verified(t, id, verified, s.nowMs)
    case Qualify(id, mode, operations, identity) => Qualified(t, id, mode, operations, identity, s.nowMs)
    case RecordRelaunch(id, relaunch) => Relaunched(t, id, relaunch, s.nowMs)
    case Acknowledge(keys) => AcknowledgedAll(t, Distinct(keys))
    case Snapshot(oldSessionId) => Snapshotted(t, oldSessionId, s.nowMs)
    case Close(n) => ClosedUp(t, n, s.nowMs)
    case Clean(id, files, outside) => if id in t.items then Cleanup.Cleaned(t, files, id, outside).tables else t
    case DropGenerations => WithoutObsolete(t)
  }

  ghost function AfterAll(t: Tables, steps: seq<Step>): Tables
    decreases steps
  {
    if steps == [] then t else AfterAll(After(t, steps[0]), steps[1..])
  }

  // ----- What holds in every reachable state -----

  ghost predicate ResultsDurable(t: Tables) {
    forall id :: id in t.items && t.items[id].state.Terminal? && t.items[id].generation > 0 ==> id in t.results
  }

  ghost predicate StampedAsMembers(t: Tables) {
    forall id :: id in t.items && t.items[id].generation > 0 ==>
      t.items[id].generation in t.generations && id in t.generations[t.items[id].generation].members
  }

  ghost predicate Numbered(t: Tables) {
    forall g :: g in t.generations ==> 1 <= g && (g > 1 ==> g - 1 in t.generations)
  }

  ghost predicate OnlyNewestOpen(t: Tables) {
    forall g, h :: g in t.generations && h in t.generations && t.generations[g].state.Open? ==> h <= g
  }

  ghost predicate Sound(t: Tables) {
    RowsParse(t) && ResultsDurable(t) && StampedAsMembers(t) && Numbered(t) && OnlyNewestOpen(t)
  }

  lemma UpdateKeepsSound(t: Tables, id: string, i: Item)
    requires Sound(t) && ItemParses(i)
    requires i.generation == if id in t.items then t.items[id].generation else 0
    requires i.state.Terminal? && i.generation > 0 ==> id in t.results
    ensures Sound(t.(items := t.items[id := i]))
  {
  }

  lemma EndKeepsSound(t: Tables, id: string, e: Ending)
    requires Sound(t)
    ensures Sound(Ended(t, id, e))
  {
  }

  lemma {:induction false} AcknowledgeKeepsSound(t: Tables, keys: seq<string>)
    requires Sound(t)
    ensures Sound(AcknowledgedAll(t, keys))
    decreases keys
  {
    if keys != [] {
      AcknowledgeKeepsSound(Acknowledged(t, keys[0]), keys[1..]);
    }
  }

  /** A snapshot stamps exactly the active items, all with the new generation. */
  lemma SnapshotStamps(t: Tables, oldSessionId: string, nowMs: int)
    requires Sound(t) && MaySnapshot(t)
    ensures Snapshotted(t, oldSessionId, nowMs).items.Keys == t.items.Keys
    ensures forall id :: id in t.items ==>
              Snapshotted(t, oldSessionId, nowMs).items[id] ==
              if t.items[id].state.Active?
              then t.items[id].(generation := Latest(t.generations.Keys) + 1, updatedAtMs := nowMs)
              else t.items[id]
  {
    forall id | id in t.items ensures t.items[id].generation < Latest(t.generations.Keys) + 1 {
      assert t.items[id].generation > 0 ==> t.items[id].generation in t.generations;
    }
  }

  /** Active items stamped with a new generation that lists them keep the tables sound. */
  lemma StampingKeepsSound(t: Tables, u: Tables, n: nat, ids: set<string>, nowMs: int)
    requires Sound(t) && u.results == t.results && u.items.Keys == t.items.Keys
    requires Numbered(u) && OnlyNewestOpen(u) && n in u.generations && n !in t.generations
             && u.generations[n].members == ids
    requires forall g :: g in t.generations ==>
               g in u.generations && u.generations[g].members == t.generations[g].members
    requires forall id :: id in ids ==> id in t.items && t.items[id].state.Active?
    requires forall id :: id in t.items ==>
               u.items[id] == if id in ids then t.items[id].(generation := n, updatedAtMs := nowMs) else t.items[id]
    ensures Sound(u)
  {
    forall id | id in u.items && u.items[id].generation > 0
      ensures u.items[id].generation in u.generations && id in u.generations[u.items[id].generation].members
    {
      assert id !in ids ==> t.items[id].generation in t.generations;
    }
  }

  lemma GenerationsAfterSnapshot(t: Tables, n: nat, oldSessionId: string, ids: set<string>, nowMs: int)
    requires Numbered(t) && n == Latest(t.generations.Keys) + 1
    ensures var u := Allocated(t, n, oldSessionId, ids, nowMs);
            Numbered(u) && OnlyNewestOpen(u) && u.generations.Keys == t.generations.Keys + {n}
            && forall g :: g in t.generations ==> u.generations[g].members == t.generations[g].members
  {
  }

  lemma SnapshotKeepsSound(t: Tables, oldSessionId: string, nowMs: int)
    requires Sound(t)
    ensures Sound(Snapshotted(t, oldSessionId, nowMs))
  {
    if MaySnapshot(t) {
      var n, ids := Latest(t.generations.Keys) + 1, ActiveIds(t);
      SnapshotStamps(t, oldSessionId, nowMs);
      GenerationsAfterSnapshot(t, n, oldSessionId, ids, nowMs);
      StampingKeepsSound(t, Snapshotted(t, oldSessionId, nowMs), n, ids, nowMs);
    }
  }

  lemma CleanKeepsSound(t: Tables, files: Cleanup.Files, id: string, o: Cleanup.Outside)
    requires Sound(t) && id in t.items
    ensures Sound(Cleanup.Cleaned(t, files, id, o).tables)
  {
    Cleanup.CleaningIsLocal(t, files, id, o);
    var u := Cleanup.Cleaned(t, files, id, o).tables;
    assert forall r :: r in u.results ==> u.results[r].generation == t.results[r].generation;
  }

  /** The steps that record something about one item. */
  predicate IsItemStep(a: Action) {
    a.Launch? || a.Progress? || a.NoteProcess? || a.Verify? || a.Qualify? || a.RecordRelaunch?
  }

  lemma ItemStepKeepsSound(t: Tables, s: Step, id: string)
    requires Sound(t) && IsItemStep(s.action) && s.action.id == id
    ensures Sound(After(t, s))
  {
    var u := After(t, s);
    if id in u.items {
      assert u == t || u == t.(items := t.items[id := u.items[id]]);
      UpdateKeepsSound(t, id, u.items[id]);
    } else {
      assert u == t;
    }
  }

  lemma StepKeepsSound(t: Tables, s: Step)
    requires Sound(t)
    ensures Sound(After(t, s))
  {
    match s.action
    case End(id, outcome, evidence) => EndKeepsSound(t, id, Ending(outcome, evidence, s.nowMs));
    case Acknowledge(keys) => AcknowledgeKeepsSound(t, Distinct(keys));
    case Snapshot(oldSessionId) => SnapshotKeepsSound(t, oldSessionId, s.nowMs);
    case Close(n) =>
    case Clean(id, files, outside) =>
      if id in t.items {
        CleanKeepsSound(t, files, id, outside);
      }
    case DropGenerations =>
    case Launch(id, _, _) => ItemStepKeepsSound(t, s, id);
    case Progress(id, _) => ItemStepKeepsSound(t, s, id);
    case NoteProcess(id, _) => ItemStepKeepsSound(t, s, id);
    case Verify(id, _) => ItemStepKeepsSound(t, s, id);
    case Qualify(id, _, _, _) => ItemStepKeepsSound(t, s, id);
    case RecordRelaunch(id, _) => ItemStepKeepsSound(t, s, id);
  }

  lemma {:induction false} EveryRunStaysSound(t: Tables, steps: seq<Step>)
    requires Sound(t)
    ensures Sound(AfterAll(t, steps))
    decreases steps
  {
    if steps != [] {
      StepKeepsSound(t, steps[0]);
      EveryRunStaysSound(After(t, steps[0]), steps[1..]);
    }
  }

  // ----- What no step takes back -----

  /** A result keeps its outcome, evidence and generation; delivery and the copy only come to be. */
  ghost predicate ResultStands(r: CarriedResult, later: CarriedResult) {
    && later.(artifact := None, delivered := false) == r.(artifact := None, delivered := false)
    && (r.delivered ==> later.delivered)
    && (later.artifact != r.artifact ==> later.artifact.Some? && later.artifact.value.OwnedCopy?)
    && (r.artifact.Some? && r.artifact.value.OwnedCopy? ==> later.artifact == r.artifact)
  }

  ghost predicate ResultsStand(t: Tables, later: Tables) {
    forall id :: id in t.results ==> id in later.results && ResultStands(t.results[id], later.results[id])
  }

  /** A generation that is no longer open stays as it is, and its members never change. */
  ghost predicate GenerationsStand(t: Tables, later: Tables) {
    forall g :: g in t.generations && g in later.generations ==>
      var was, now := t.generations[g], later.generations[g];
      && now.(state := was.state, updatedAtMs := was.updatedAtMs) == was
      && (!was.state.Open? ==> now == was)
      && (now.state != was.state && now.state.Closed? ==> MayClose(t, g))
  }

  /** An item goes only after it ended, and a carried one only with its result durable. */
  ghost predicate ItemsStand(t: Tables, later: Tables) {
    forall id :: id in t.items ==>
      if id in later.items
      then t.items[id].state.Terminal? ==>
             later.items[id].ending == t.items[id].ending && later.items[id].state.Terminal?
      else t.items[id].state.Terminal? && (t.items[id].generation > 0 ==> id in later.results)
  }

  ghost predicate ItemsAlike(t: Tables, later: Tables) {
    && later.items.Keys == t.items.Keys
    && forall id :: id in t.items ==>
         later.items[id] == t.items[id].(eventsDelivered := later.items[id].eventsDelivered)
  }

  lemma AcknowledgeOneStands(t: Tables, key: string)
    ensures var u := Acknowledged(t, key);
            ResultsStand(t, u) && ItemsAlike(t, u) && u.generations == t.generations
  {
  }

  ghost predicate Stands(t: Tables, later: Tables) {
    ResultsStand(t, later) && GenerationsStand(t, later) && ItemsStand(t, later)
  }

  lemma ResultsStandOn(t: Tables, u: Tables, v: Tables)
    requires ResultsStand(t, u) && ResultsStand(u, v)
    ensures ResultsStand(t, v)
  {
    forall id | id in t.results ensures id in v.results && ResultStands(t.results[id], v.results[id]) {
      assert ResultStands(t.results[id], u.results[id]) && ResultStands(u.results[id], v.results[id]);
    }
  }

  lemma {:induction false} AcknowledgeStands(t: Tables, keys: seq<string>)
    ensures var u := AcknowledgedAll(t, keys);
            ResultsStand(t, u) && ItemsAlike(t, u) && u.generations == t.generations
    decreases keys
  {
    if keys != [] {
      var u := Acknowledged(t, keys[0]);
      AcknowledgeOneStands(t, keys[0]);
      AcknowledgeStands(u, keys[1..]);
      ResultsStandOn(t, u, AcknowledgedAll(u, keys[1..]));
    }
  }

  lemma CleanStands(t: Tables, files: Cleanup.Files, id: string, o: Cleanup.Outside)
    requires id in t.items
    ensures Stands(t, Cleanup.Cleaned(t, files, id, o).tables)
  {
    Cleanup.CleaningIsLocal(t, files, id, o);
    var u := Cleanup.Cleaned(t, files, id, o).tables;
    forall r | r in t.results ensures ResultStands(t.results[r], u.results[r]) {
      if r != id {
        assert r in t.results - {id} && (u.results - {id})[r] == (t.results - {id})[r];
      }
    }
  }

  lemma ItemStepStands(t: Tables, s: Step)
    requires IsItemStep(s.action)
    ensures Stands(t, After(t, s)) && After(t, s).results == t.results
  {
    match s.action
    case Launch(_, _, _) =>
    case Progress(_, _) =>
    case NoteProcess(_, _) =>
    case Verify(_, _) =>
    case Qualify(_, _, _, _) =>
    case RecordRelaunch(_, _) =>
  }

  lemma SnapshotStands(t: Tables, oldSessionId: string, nowMs: int)
    requires Sound(t)
    ensures Stands(t, Snapshotted(t, oldSessionId, nowMs))
  {
    if MaySnapshot(t) {
      SnapshotStamps(t, oldSessionId, nowMs);
    }
  }

  lemma CloseStands(t: Tables, n: nat, nowMs: int)
    ensures Stands(t, ClosedUp(t, n, nowMs))
  {
  }

  lemma EndStands(t: Tables, id: string, e: Ending)
    ensures Stands(t, Ended(t, id, e))
  {
  }

  lemma AlikeStands(t: Tables, u: Tables)
    requires ResultsStand(t, u) && ItemsAlike(t, u) && u.generations == t.generations
    ensures Stands(t, u)
  {
  }

  lemma DropStands(t: Tables)
    ensures Stands(t, WithoutObsolete(t))
  {
  }

  lemma StepStands(t: Tables, s: Step)
    requires Sound(t)
    ensures Stands(t, After(t, s))
  {
    if IsItemStep(s.action) {
      ItemStepStands(t, s);
    } else {
      match s.action
      case End(id, outcome, evidence) => EndStands(t, id, Ending(outcome, evidence, s.nowMs));
      case Acknowledge(keys) =>
        AcknowledgeStands(t, Distinct(keys));
        AlikeStands(t, After(t, s));
      case Snapshot(oldSessionId) => SnapshotStands(t, oldSessionId, s.nowMs);
      case Close(n) => CloseStands(t, n, s.nowMs);
      case Clean(id, files, outside) =>
        if id in t.items {
          CleanStands(t, files, id, outside);
        }
      case DropGenerations => DropStands(t);
    }
  }

  /** Over any run a result, once durable, stands. */
  lemma {:induction false} NoOutcomeIsLost(t: Tables, steps: seq<Step>)
    requires Sound(t)
    ensures ResultsStand(t, AfterAll(t, steps))
    decreases steps
  {
    if steps != [] {
      var u := After(t, steps[0]);
      StepKeepsSound(t, steps[0]);
      StepStands(t, steps[0]);
      NoOutcomeIsLost(u, steps[1..]);
      ResultsStandOn(t, u, AfterAll(u, steps[1..]));
    }
  }

  // ----- How generations come and go -----

  predicate TakesSnapshot(t: Tables, s: Step) {
    s.action.Snapshot? && MaySnapshot(t)
  }

  predicate Closes(t: Tables, s: Step, g: nat) {
    s.action.Close? && s.action.generation == g && MayClose(t, g)
  }

  /** The row of a generation after a step: an open one is closed or superseded, and dated then. */
  ghost predicate GenerationMoved(t: Tables, s: Step, g: nat, was: Generation, now: Generation) {
    now == if was.state.Open? && Closes(t, s, g) then was.(state := Closed, updatedAtMs := s.nowMs)
           else if was.state.Open? && TakesSnapshot(t, s) then was.(state := Superseded, updatedAtMs := s.nowMs)
           else was
  }

  lemma SnapshotMovesGenerations(t: Tables, s: Step, g: nat)
    requires Sound(t) && TakesSnapshot(t, s)
    ensures var u, n := After(t, s), Latest(t.generations.Keys) + 1;
      && u.generations.Keys == t.generations.Keys + {n} && n !in t.generations
      && u.generations[n] == Generation(s.action.oldSessionId, ActiveIds(t), Open, s.nowMs, s.nowMs)
      && (g in t.generations ==> GenerationMoved(t, s, g, t.generations[g], u.generations[g]))
  {
  }

  /**
   Over one step: a generation goes only when none of the items is left, comes only by a
   snapshot, as the next number, open over the active items, and moves as said.
   */
  lemma StepMovesGenerations(t: Tables, s: Step, g: nat)
    requires Sound(t)
    ensures var u := After(t, s);
      && (g in t.generations && g !in u.generations <==>
            g in t.generations && s.action.DropGenerations? && t.items == map[])
      && (g !in t.generations && g in u.generations <==>
            TakesSnapshot(t, s) && g == Latest(t.generations.Keys) + 1)
      && (g !in t.generations && g in u.generations ==>
            u.generations[g] == Generation(s.action.oldSessionId, ActiveIds(t), Open, s.nowMs, s.nowMs))
      && (g in t.generations && g in u.generations ==>
            GenerationMoved(t, s, g, t.generations[g], u.generations[g]))
  {
    if TakesSnapshot(t, s) {
      SnapshotMovesGenerations(t, s, g);
    } else if s.action.Acknowledge? {
      AcknowledgeStands(t, Distinct(s.action.keys));
    } else if s.action.Clean? && s.action.id in t.items {
      Cleanup.CleaningIsLocal(t, s.action.files, s.action.id, s.action.outside);
    }
  }

  // ----- What is pending -----

  /** The step acknowledges the durable result by its name. */
  predicate Acknowledges(t: Tables, s: Step, id: string) {
    s.action.Acknowledge? && id in s.action.keys && id in t.results && EventKeys.Parsed(id).None?
  }

  ghost predicate IsAcknowledged(t: Tables, steps: seq<Step>, id: string)
    decreases steps
  {
    steps != [] && (Acknowledges(t, steps[0], id) || IsAcknowledged(After(t, steps[0]), steps[1..], id))
  }

  predicate IsDelivered(t: Tables, id: string) {
    id in t.results && t.results[id].delivered
  }

  lemma {:induction false} AcknowledgingDelivers(t: Tables, keys: seq<string>, id: string)
    ensures IsDelivered(AcknowledgedAll(t, keys), id) <==>
            IsDelivered(t, id) || (id in keys && id in t.results && EventKeys.Parsed(id).None?)
    ensures id in AcknowledgedAll(t, keys).results <==> id in t.results
    decreases keys
  {
    if keys != [] {
      AcknowledgingDelivers(Acknowledged(t, keys[0]), keys[1..], id);
      assert id in keys <==> id == keys[0] || id in keys[1..];
    }
  }

  lemma StepDelivers(t: Tables, s: Step, id: string)
    requires Sound(t)
    ensures IsDelivered(After(t, s), id) <==> IsDelivered(t, id) || Acknowledges(t, s, id)
  {
    if IsItemStep(s.action) {
      ItemStepStands(t, s);
    } else {
      match s.action
      case End(_, _, _) =>
      case Acknowledge(keys) =>
        AcknowledgingDelivers(t, Distinct(keys), id);
      case Snapshot(_) =>
      case Close(_) =>
      case Clean(k, files, outside) =>
        if k in t.items {
          Cleanup.CleaningIsLocal(t, files, k, outside);
          var u := After(t, s);
          assert id != k && id in t.results ==> (u.results - {k})[id] == (t.results - {k})[id];
        }
      case DropGenerations =>
    }
  }

  /** Over any run a result is delivered exactly when it was, or it was acknowledged by its name once durable. */
  lemma {:induction false} DeliveredIffAcknowledged(t: Tables, steps: seq<Step>, id: string)
    requires Sound(t)
    ensures IsDelivered(AfterAll(t, steps), id) <==> IsDelivered(t, id) || IsAcknowledged(t, steps, id)
    decreases steps
  {
    if steps != [] {
      StepKeepsSound(t, steps[0]);
      StepDelivers(t, steps[0], id);
      DeliveredIffAcknowledged(After(t, steps[0]), steps[1..], id);
    }
  }

  // ----- Whose outcome a result holds -----

  /** The item's result tells how this item ended, and there is none before it did. */
  ghost predicate ToldAsItEnded(t: Tables, id: string)
    requires id in t.items
  {
    var i := t.items[id];
    if i.state.Terminal? && i.ending.Some? && i.generation > 0 then
      && id in t.results && t.results[id].outcome == i.ending.value.outcome
      && t.results[id].evidence == OneLine(i.ending.value.evidence, MAX_RESULT_EVIDENCE_CHARS)
      && t.results[id].generation == i.generation && t.results[id].observedAtMs == i.ending.value.observedAtMs
      && t.results[id].family == i.work.family && t.results[id].labelText == i.work.labelText
    else id !in t.results
  }

  ghost predicate AllToldAsTheyEnded(t: Tables) {
    forall id :: id in t.items ==> ToldAsItEnded(t, id)
  }

  /** A launch under a name whose result is already durable. */
  predicate LaunchesAgain(t: Tables, s: Step) {
    s.action.Launch? && s.action.id !in t.items && s.action.id in t.results
  }

  ghost predicate NeverLaunchesAgain(t: Tables, steps: seq<Step>)
    decreases steps
  {
    steps != [] ==> !LaunchesAgain(t, steps[0]) && NeverLaunchesAgain(After(t, steps[0]), steps[1..])
  }

  lemma {:induction false} AcknowledgeTells(t: Tables, keys: seq<string>)
    requires AllToldAsTheyEnded(t)
    ensures AllToldAsTheyEnded(AcknowledgedAll(t, keys))
    decreases keys
  {
    if keys != [] {
      var u := Acknowledged(t, keys[0]);
      forall id | id in u.items ensures ToldAsItEnded(u, id) {
        assert ToldAsItEnded(t, id);
      }
      AcknowledgeTells(u, keys[1..]);
    }
  }

  lemma SnapshotTells(t: Tables, s: Step)
    requires Sound(t) && AllToldAsTheyEnded(t) && s.action.Snapshot?
    ensures AllToldAsTheyEnded(After(t, s))
  {
    if MaySnapshot(t) {
      SnapshotStamps(t, s.action.oldSessionId, s.nowMs);
      var u := After(t, s);
      forall id | id in u.items ensures ToldAsItEnded(u, id) {
        assert ToldAsItEnded(t, id);
      }
    }
  }

  lemma CleanTells(t: Tables, s: Step)
    requires Sound(t) && AllToldAsTheyEnded(t) && s.action.Clean? && s.action.id in t.items
    ensures AllToldAsTheyEnded(After(t, s))
  {
    var u := After(t, s);
    Cleanup.CleaningIsLocal(t, s.action.files, s.action.id, s.action.outside);
    forall id | id in u.items ensures ToldAsItEnded(u, id) {
      assert ToldAsItEnded(t, id);
      assert id != s.action.id || u == t;
      assert id in t.results && id != s.action.id ==>
               (u.results - {s.action.id})[id] == (t.results - {s.action.id})[id];
    }
  }

  lemma ItemStepTells(t: Tables, s: Step)
    requires AllToldAsTheyEnded(t) && IsItemStep(s.action)
    ensures AllToldAsTheyEnded(After(t, s)) <==> !LaunchesAgain(t, s)
  {
    var u := After(t, s);
    ItemStepStands(t, s);
    if LaunchesAgain(t, s) {
      assert !ToldAsItEnded(u, s.action.id);
    } else {
      forall id | id in u.items ensures ToldAsItEnded(u, id) {
        assert id in t.items ==> ToldAsItEnded(t, id);
      }
    }
  }

  lemma EndTells(t: Tables, id: string, e: Ending)
    requires AllToldAsTheyEnded(t)
    ensures AllToldAsTheyEnded(Ended(t, id, e))
  {
    var u := Ended(t, id, e);
    forall k | k in u.items ensures ToldAsItEnded(u, k) {
      assert ToldAsItEnded(t, k);
    }
  }

  lemma SameItemsTell(t: Tables, u: Tables)
    requires AllToldAsTheyEnded(t) && u.items == t.items && u.results == t.results
    ensures AllToldAsTheyEnded(u)
  {
    forall id | id in u.items ensures ToldAsItEnded(u, id) {
      assert ToldAsItEnded(t, id);
    }
  }

  /**
   A step breaks this, that only ended items have results and their own, exactly by launching
   under a name with a result.
   */
  lemma StepTells(t: Tables, s: Step)
    requires Sound(t) && AllToldAsTheyEnded(t)
    ensures AllToldAsTheyEnded(After(t, s)) <==> !LaunchesAgain(t, s)
  {
    if IsItemStep(s.action) {
      ItemStepTells(t, s);
    } else {
      match s.action
      case End(id, outcome, evidence) => EndTells(t, id, Ending(outcome, evidence, s.nowMs));
      case Acknowledge(keys) => AcknowledgeTells(t, Distinct(keys));
      case Snapshot(_) => SnapshotTells(t, s);
      case Close(_) => SameItemsTell(t, After(t, s));
      case Clean(id, _, _) =>
        if id in t.items {
          CleanTells(t, s);
        }
      case DropGenerations => SameItemsTell(t, After(t, s));
    }
  }

  /** Every carried item's own outcome is durable in any run without a second launch under an old name. */
  lemma {:induction false} EveryOutcomeIsTold(t: Tables, steps: seq<Step>)
    requires Sound(t) && AllToldAsTheyEnded(t) && NeverLaunchesAgain(t, steps)
    ensures AllToldAsTheyEnded(AfterAll(t, steps))
    decreases steps
  {
    if steps != [] {
      StepTells(t, steps[0]);
      StepKeepsSound(t, steps[0]);
      EveryOutcomeIsTold(After(t, steps[0]), steps[1..]);
    }
  }

  // ----- Where an outcome is lost -----

  /** A finished carried item's own outcome and evidence are the durable ones. */
  ghost predicate OutcomeDurable(t: Tables, id: string)
    requires id in t.items
  {
    var i := t.items[id];
    i.state.Terminal? && i.ending.Some? && i.generation > 0 ==>
      && id in t.results && t.results[id].outcome == i.ending.value.outcome
      && t.results[id].evidence == OneLine(i.ending.value.evidence, MAX_RESULT_EVIDENCE_CHARS)
  }

  ghost predicate AllOutcomesDurable(t: Tables) {
    forall id :: id in t.items ==> OutcomeDurable(t, id)
  }

  /** A carried item ends while its name has a result already, of another outcome or evidence. */
  predicate LosesOutcome(t: Tables, s: Step) {
    && s.action.End? && IsUnfinished(t, s.action.id) && t.items[s.action.id].generation > 0 && s.action.id in t.results
    && (t.results[s.action.id].outcome != s.action.outcome
        || t.results[s.action.id].evidence != OneLine(s.action.evidence, MAX_RESULT_EVIDENCE_CHARS))
  }

  lemma {:induction false} AcknowledgeKeepsOutcomes(t: Tables, keys: seq<string>)
    requires AllOutcomesDurable(t)
    ensures AllOutcomesDurable(AcknowledgedAll(t, keys))
    decreases keys
  {
    if keys != [] {
      var u := Acknowledged(t, keys[0]);
      forall id | id in u.items ensures OutcomeDurable(u, id) {
        assert OutcomeDurable(t, id);
      }
      AcknowledgeKeepsOutcomes(u, keys[1..]);
    }
  }

  lemma EndKeepsOutcomesIff(t: Tables, s: Step)
    requires AllOutcomesDurable(t) && s.action.End?
    ensures AllOutcomesDurable(After(t, s)) <==> !LosesOutcome(t, s)
  {
    var u, id := After(t, s), s.action.id;
    forall k | k in u.items && k != id ensures OutcomeDurable(u, k) {
      assert OutcomeDurable(t, k);
    }
    if id in u.items {
      assert OutcomeDurable(t, id);
      assert OutcomeDurable(u, id) <==> !LosesOutcome(t, s);
    }
  }

  lemma ItemStepKeepsOutcomes(t: Tables, s: Step)
    requires AllOutcomesDurable(t) && IsItemStep(s.action)
    ensures AllOutcomesDurable(After(t, s))
  {
    var u := After(t, s);
    ItemStepStands(t, s);
    forall k | k in u.items ensures OutcomeDurable(u, k) {
      assert k in t.items ==> OutcomeDurable(t, k);
    }
  }

  lemma CleanKeepsOutcomes(t: Tables, files: Cleanup.Files, id: string, o: Cleanup.Outside)
    requires AllOutcomesDurable(t) && id in t.items
    ensures AllOutcomesDurable(Cleanup.Cleaned(t, files, id, o).tables)
  {
    var u := Cleanup.Cleaned(t, files, id, o).tables;
    Cleanup.CleaningIsLocal(t, files, id, o);
    forall k | k in u.items ensures OutcomeDurable(u, k) {
      assert OutcomeDurable(t, k) && (k != id || u == t);
      assert k in t.results && k != id ==> (u.results - {id})[k] == (t.results - {id})[k];
    }
  }

  lemma SnapshotKeepsOutcomes(t: Tables, oldSessionId: string, nowMs: int)
    requires Sound(t) && AllOutcomesDurable(t)
    ensures AllOutcomesDurable(Snapshotted(t, oldSessionId, nowMs))
  {
    if MaySnapshot(t) {
      SnapshotStamps(t, oldSessionId, nowMs);
      var u := Snapshotted(t, oldSessionId, nowMs);
      forall k | k in u.items ensures OutcomeDurable(u, k) {
        assert OutcomeDurable(t, k);
      }
    }
  }

  lemma SameItemsKeepOutcomes(t: Tables, u: Tables)
    requires AllOutcomesDurable(t) && u.items == t.items && u.results == t.results
    ensures AllOutcomesDurable(u)
  {
    forall k | k in u.items ensures OutcomeDurable(u, k) {
      assert OutcomeDurable(t, k);
    }
  }

  lemma OtherStepKeepsOutcomes(t: Tables, s: Step)
    requires Sound(t) && AllOutcomesDurable(t) && !s.action.End?
    ensures AllOutcomesDurable(After(t, s))
  {
    if IsItemStep(s.action) {
      ItemStepKeepsOutcomes(t, s);
    } else {
      match s.action
      case Acknowledge(keys) => AcknowledgeKeepsOutcomes(t, Distinct(keys));
      case Clean(id, files, outside) =>
        if id in t.items {
          CleanKeepsOutcomes(t, files, id, outside);
        }
      case Snapshot(oldSessionId) => SnapshotKeepsOutcomes(t, oldSessionId, s.nowMs);
      case Close(_) => SameItemsKeepOutcomes(t, After(t, s));
      case DropGenerations => SameItemsKeepOutcomes(t, After(t, s));
    }
  }

  /** A step loses a finished carried item's own outcome exactly when it ends one whose name holds another. */
  lemma OutcomeLostExactly(t: Tables, s: Step)
    requires Sound(t) && AllOutcomesDurable(t)
    ensures AllOutcomesDurable(After(t, s)) <==> !LosesOutcome(t, s)
  {
    if s.action.End? {
      EndKeepsOutcomesIff(t, s);
    } else {
      OtherStepKeepsOutcomes(t, s);
    }
  }

  // ----- Copies of outputs -----

  /** No tracked item's result points at an owned copy yet. */
  ghost predicate NoneCopied(t: Tables) {
    forall id :: id in t.items ==> !Cleanup.HasOwnedCopy(t, id)
  }

  /** A launch under a name whose earlier output was copied. */
  predicate LaunchesCopied(t: Tables, s: Step) {
    s.action.Launch? && s.action.id !in t.items && Cleanup.HasOwnedCopy(t, s.action.id)
  }

  ghost predicate NeverLaunchesCopied(t: Tables, steps: seq<Step>)
    decreases steps
  {
    steps != [] ==> !LaunchesCopied(t, steps[0]) && NeverLaunchesCopied(After(t, steps[0]), steps[1..])
  }

  lemma {:induction false} AcknowledgeCopiesNothing(t: Tables, keys: seq<string>)
    ensures forall id :: Cleanup.HasOwnedCopy(AcknowledgedAll(t, keys), id) <==> Cleanup.HasOwnedCopy(t, id)
    ensures AcknowledgedAll(t, keys).items.Keys == t.items.Keys
    decreases keys
  {
    if keys != [] {
      AcknowledgeCopiesNothing(Acknowledged(t, keys[0]), keys[1..]);
    }
  }

  lemma CleaningCopiesOnlyTheRemoved(t: Tables, files: Cleanup.Files, id: string, o: Cleanup.Outside)
    requires id in t.items && NoneCopied(t)
    ensures NoneCopied(Cleanup.Cleaned(t, files, id, o).tables)
  {
    Cleanup.CleaningIsLocal(t, files, id, o);
    var u := Cleanup.Cleaned(t, files, id, o).tables;
    forall k | k in u.items ensures !Cleanup.HasOwnedCopy(u, k) {
      assert k != id || u == t;
      assert k in t.results && k != id ==> (u.results - {id})[k] == (t.results - {id})[k];
    }
  }

  /** A step leaves no tracked item with an owned copy exactly when it does not launch again under a copied name. */
  lemma StepCopies(t: Tables, s: Step)
    requires Sound(t) && NoneCopied(t)
    ensures NoneCopied(After(t, s)) <==> !LaunchesCopied(t, s)
  {
    var u := After(t, s);
    match s.action
    case Acknowledge(keys) => AcknowledgeCopiesNothing(t, Distinct(keys));
    case Snapshot(oldSessionId) =>
      if MaySnapshot(t) {
        SnapshotStamps(t, oldSessionId, s.nowMs);
      }
    case Clean(id, files, outside) =>
      if id in t.items {
        CleaningCopiesOnlyTheRemoved(t, files, id, outside);
      }
    case End(_, _, _) =>
    case Close(_) =>
    case DropGenerations =>
    case Launch(id, _, _) =>
      ItemStepStands(t, s);
      assert id in u.items && (Cleanup.HasOwnedCopy(u, id) <==> Cleanup.HasOwnedCopy(t, id));
    case _ => ItemStepStands(t, s);
  }

  /** In every run without a launch under a copied name, cleanup finds an item's output not yet copied. */
  lemma {:induction false} NoneCopiedInRuns(t: Tables, steps: seq<Step>)
    requires Sound(t) && NoneCopied(t) && NeverLaunchesCopied(t, steps)
    ensures NoneCopied(AfterAll(t, steps))
    decreases steps
  {
    if steps != [] {
      StepCopies(t, steps[0]);
      StepKeepsSound(t, steps[0]);
      NoneCopiedInRuns(After(t, steps[0]), steps[1..]);
    }
  }

  lemma {:induction false} RunExtends(t: Tables, steps: seq<Step>, s: Step)
    ensures AfterAll(t, steps + [s]) == After(AfterAll(t, steps), s)
    decreases steps
  {
    if steps == [] {
      assert [s][1..] == [];
    } else {
      assert (steps + [s])[1..] == steps[1..] + [s];
      RunExtends(After(t, steps[0]), steps[1..], s);
    }
  }

  const NOTHING_RECORDED := Tables(map[], map[], map[])

  const WAKEUP := Work(ScheduledWakeup, "", None, None, None)

  /** A wakeup is launched and qualified, and carried. */
  ghost function AfterCarrying(t: Tables, id: string): Tables {
    After(After(After(t, Step(Launch(id, WAKEUP, None), 0)),
                Step(Qualify(id, Rearm, {}, ScheduledTime("call", 1)), 0)), Step(Snapshot("session"), 0))
  }

  lemma WakeupIsQualified(t: Tables, id: string) returns (u: Tables)
    requires Sound(t) && t.items == map[]
    ensures var launched := After(t, Step(Launch(id, WAKEUP, None), 0));
            u == After(launched, Step(Qualify(id, Rearm, {}, ScheduledTime("call", 1)), 0))
    ensures Sound(u) && MaySnapshot(u) && u.results == t.results && u.items.Keys == {id} && u.items[id].state.Active?
    ensures u.items[id].relaunch.None? && OwnedOutput(u.items[id]).None?
  {
    var launched := Step(Launch(id, WAKEUP, None), 0);
    var qualified := Step(Qualify(id, Rearm, {}, ScheduledTime("call", 1)), 0);
    StepKeepsSound(t, launched);
    StepKeepsSound(After(t, launched), qualified);
    u := After(After(t, launched), qualified);
  }

  lemma WakeupIsCarried(t: Tables, id: string)
    requires Sound(t) && t.items == map[]
    ensures var u := AfterCarrying(t, id);
      && u.results == t.results && u.items.Keys == {id} && u.items[id].generation > 0 && u.items[id].state.Active?
      && u.items[id].relaunch.None? && OwnedOutput(u.items[id]).None?
  {
    var u := WakeupIsQualified(t, id);
    SnapshotStamps(u, "session", 0);
  }

  /** The run goes on by one life of a wakeup, whose ending is told only when the name is new. */
  lemma WakeupLives(steps: seq<Step>, id: string, outcome: Outcome) returns (longer: seq<Step>)
    requires var t := AfterAll(NOTHING_RECORDED, steps); Sound(t) && t.items == map[]
    ensures var t, u := AfterAll(NOTHING_RECORDED, steps), AfterAll(NOTHING_RECORDED, longer);
      && u.items.Keys == {id} && u.items[id].generation > 0 && u.items[id].relaunch.None?
      && u.items[id].ending == Some(Ending(outcome, "", 0)) && OwnedOutput(u.items[id]).None?
      && id in u.results && (id in t.results ==> u.results == t.results)
      && (id !in t.results ==> u.results[id].outcome == outcome)
  {
    var s0, s1 := Step(Launch(id, WAKEUP, None), 0), Step(Qualify(id, Rearm, {}, ScheduledTime("call", 1)), 0);
    var s2, s3 := Step(Snapshot("session"), 0), Step(End(id, outcome, ""), 0);
    RunExtends(NOTHING_RECORDED, steps, s0);
    RunExtends(NOTHING_RECORDED, steps + [s0], s1);
    RunExtends(NOTHING_RECORDED, steps + [s0] + [s1], s2);
    RunExtends(NOTHING_RECORDED, steps + [s0] + [s1] + [s2], s3);
    longer := steps + [s0] + [s1] + [s2] + [s3];
    WakeupIsCarried(AfterAll(NOTHING_RECORDED, steps), id);
  }

  /** A wakeup that lived, was cleaned up and lived again under its name: its second ending is lost. */
  lemma SecondEndingIsLost(id: string, outside: Cleanup.Outside) returns (steps: seq<Step>)
    ensures var t := AfterAll(NOTHING_RECORDED, steps);
      && id in t.items && t.items[id].ending == Some(Ending(Failed, "", 0)) && t.items[id].generation > 0
      && id in t.results && t.results[id].outcome == Completed
  {
    steps := WakeupLives([], id, Completed);
    EveryRunStaysSound(NOTHING_RECORDED, steps);
    var clean := Step(Clean(id, map[], outside), 0);
    RunExtends(NOTHING_RECORDED, steps, clean);
    EveryRunStaysSound(NOTHING_RECORDED, steps + [clean]);
    var t, u := AfterAll(NOTHING_RECORDED, steps), AfterAll(NOTHING_RECORDED, steps + [clean]);
    assert Cleanup.ToCopy(t, id).None?;
    assert u.items == map[] && u.results == t.results;
    steps := WakeupLives(steps + [clean], id, Failed);
  }
}
