/** Taking a handoff generation over the open items, and closing it. */
module Snapshots {
  import opened Basics
  import opened ContinuityStore

  datatype Mechanism =
    | ParentOutputRead(path: Path)
    | SendMessage(agentId: string)
    | WorkflowResume(runId: string, scriptPath: Path)
    | RearmAt(scheduledForMs: int)
    | MonitorRelaunch(toolUseId: string, rolloutPath: Path)

  datatype CarriedItem = CarriedItem(work: Work, carryMode: CarryMode, operations: set<Operation>, identity: Identity,
                                     mechanism: Mechanism, relaunch: Option<Relaunch>)

  datatype SnapshotRefusal = UnverifiedItems | UnqualifiedItems

  datatype SnapshotAnswer =
    | NotTaken(reason: SnapshotRefusal, ids: set<string>)
    | Taken(generation: nat, createdAtMs: int, items: map<string, CarriedItem>)

  datatype ClosureRefusal = UnknownGeneration | SupersededGeneration | Unverified | NotQualified | NewWork

  datatype Closure = Closure(refusal: Option<ClosureRefusal>, carried: map<string, CarriedItem>,
                             terminalSince: map<string, Ending>, newWork: map<string, CarriedItem>,
                             unverified: set<string>, unqualified: set<string>)

  function MechanismOf(i: Identity): Mechanism {
    match i
    case PosixOutput(path, _, _) => ParentOutputRead(path)
    case Win32Output(path, _, _) => ParentOutputRead(path)
    case AgentTranscript(agentId, _) => SendMessage(agentId)
    case WorkflowRun(runId, scriptPath, _) => WorkflowResume(runId, scriptPath)
    case ScheduledTime(_, scheduledForMs) => RearmAt(scheduledForMs)
    case MonitorLaunch(toolUseId, rolloutPath) => MonitorRelaunch(toolUseId, rolloutPath)
  }

  /** A mechanism names what its identity does: a file to read, an agent, a run with its script, a time, a launch. */
  lemma MechanismFits(i: Identity)
    ensures var m := MechanismOf(i);
      && (m.ParentOutputRead? <==> i.PosixOutput? || i.Win32Output?)
      && (i.PosixOutput? || i.Win32Output? ==> m == ParentOutputRead(i.path))
      && (i.AgentTranscript? ==> m == SendMessage(i.agentId))
      && (i.WorkflowRun? ==> m == WorkflowResume(i.runId, i.scriptPath))
      && (i.ScheduledTime? ==> m == RearmAt(i.scheduledForMs))
      && (i.MonitorLaunch? ==> m == MonitorRelaunch(i.toolUseId, i.rolloutPath))
  {
  }

  predicate CanCarry(i: Item) {
    !i.carryMode.Unqualified? && i.identity.Some?
  }

  /** Throws in the program for an item that cannot be carried; here no call may be one. */
  function Carried(i: Item): CarriedItem
    requires CanCarry(i)
  {
    CarriedItem(i.work, i.carryMode, i.operations, i.identity.value, MechanismOf(i.identity.value), i.relaunch)
  }

  function UnknownIds(t: Tables): set<string> {
    set id | id in t.items && t.items[id].state.Unknown?
  }

  function ActiveIds(t: Tables): set<string> {
    set id | id in t.items && t.items[id].state.Active?
  }

  function UnqualifiedIds(t: Tables): set<string> {
    set id | id in t.items && t.items[id].state.Active? && t.items[id].carryMode.Unqualified?
  }

  /** A snapshot is taken only when every unfinished item is verified and qualified. */
  predicate MaySnapshot(t: Tables) {
    forall id | id in t.items ::
      t.items[id].state.Terminal? || (t.items[id].state.Active? && !t.items[id].carryMode.Unqualified?)
  }

  ghost function Snapshotted(t: Tables, oldSessionId: string, nowMs: int): Tables {
    if MaySnapshot(t) then Allocated(t, Latest(t.generations.Keys) + 1, oldSessionId, ActiveIds(t), nowMs) else t
  }

  method SnapshotContinuity(store: Store, oldSessionId: string, nowMs: int) returns (a: SnapshotAnswer)
    requires store.Valid()
    modifies store`items, store`generations
    ensures store.Valid() && store.Now() == Snapshotted(old(store.Now()), oldSessionId, nowMs)
    ensures a.Taken? <==> MaySnapshot(old(store.Now()))
    ensures a.Taken? ==>
              && a.generation == Latest(old(store.generations).Keys) + 1 && a.createdAtMs == nowMs
              && a.items.Keys == ActiveIds(old(store.Now()))
              && forall id :: id in a.items ==>
                   CanCarry(old(store.items)[id]) && a.items[id] == Carried(old(store.items)[id])
    ensures a.NotTaken? ==>
              && a.ids != {} && (a.reason.UnverifiedItems? <==> UnknownIds(old(store.Now())) != {})
              && a.ids == if a.reason.UnverifiedItems? then UnknownIds(old(store.Now()))
                          else UnqualifiedIds(old(store.Now()))
  {
    var items := store.items;
    var unverified := set id | id in items && items[id].state.Unknown?;
    if unverified != {} {
      return NotTaken(UnverifiedItems, unverified);
    }
    var active := set id | id in items && items[id].state.Active?;
    var unqualified := set id | id in active && items[id].carryMode.Unqualified?;
    if unqualified != {} {
      return NotTaken(UnqualifiedItems, unqualified);
    }
    assert forall id :: id in items ==> id !in unverified && id !in unqualified;
    var generation := store.AllocateGeneration(oldSessionId, active, nowMs);
    a := Taken(generation, nowMs, map id | id in active :: Carried(items[id]));
  }

  // ----- Closing -----

  /** What one item means for closing a generation. */
  datatype Standing = CarriedOn | EndedSince | NotVerified | NotYetQualified | New | Settled

  function StandingOf(id: string, i: Item, g: Generation): Standing {
    if id in g.members then
      if i.state.Active? then (if i.carryMode.Unqualified? then NotYetQualified else CarriedOn)
      else if i.state.Terminal? && i.ending.Some? then EndedSince
      else NotVerified
    else if !i.state.Terminal? && i.createdAtMs >= g.createdAtMs then
      (if i.carryMode.Unqualified? then NotYetQualified else New)
    else Settled
  }

  /** Every listed member ended or is carried on, and nothing unfinished was created since. */
  predicate MayClose(t: Tables, n: nat) {
    && n in t.generations && !t.generations[n].state.Superseded?
    && forall id | id in t.items ::
         if id in t.generations[n].members
         then t.items[id].state.Terminal? || (t.items[id].state.Active? && !t.items[id].carryMode.Unqualified?)
         else t.items[id].state.Terminal? || t.items[id].createdAtMs < t.generations[n].createdAtMs
  }

  function ClosedUp(t: Tables, n: nat, nowMs: int): Tables {
    if MayClose(t, n) && t.generations[n].state.Open? then StateSet(t, n, Closed, nowMs) else t
  }

  /** The item is on the one list its standing asks for, as it is. */
  ghost predicate Listed(c: Closure, id: string, i: Item, g: Generation) {
    var standing := StandingOf(id, i, g);
    && (standing.CarriedOn? <==> id in c.carried) && (standing.EndedSince? <==> id in c.terminalSince)
    && (standing.New? <==> id in c.newWork) && (standing.NotVerified? <==> id in c.unverified)
    && (standing.NotYetQualified? <==> id in c.unqualified)
    && (id in c.carried ==> CanCarry(i) && c.carried[id] == Carried(i))
    && (id in c.newWork ==> CanCarry(i) && c.newWork[id] == Carried(i))
    && (id in c.terminalSince ==> Some(c.terminalSince[id]) == i.ending)
  }

  ghost predicate OnSomeList(c: Closure, id: string) {
    id in c.carried || id in c.terminalSince || id in c.newWork || id in c.unverified || id in c.unqualified
  }

  /** The lists of a closure after the items of `done` were looked at. */
  ghost predicate Lists(c: Closure, t: Tables, g: Generation, done: set<string>) {
    && (forall id :: OnSomeList(c, id) ==> id in done)
    && (forall id :: id in done && id in t.items ==> Listed(c, id, t.items[id], g))
  }

  ghost predicate SameLists(c: Closure, next: Closure, id: string) {
    && (id in c.carried <==> id in next.carried) && (id in c.carried ==> c.carried[id] == next.carried[id])
    && (id in c.terminalSince <==> id in next.terminalSince)
    && (id in c.terminalSince ==> c.terminalSince[id] == next.terminalSince[id])
    && (id in c.newWork <==> id in next.newWork) && (id in c.newWork ==> c.newWork[id] == next.newWork[id])
    && (id in c.unverified <==> id in next.unverified) && (id in c.unqualified <==> id in next.unqualified)
  }

  /** Puts one item on the list its standing asks for. */
  method LookAt(id: string, item: Item, g: Generation, c: Closure) returns (next: Closure)
    requires ItemParses(item) && !OnSomeList(c, id)
    ensures Listed(next, id, item, g) && next.refusal == c.refusal
    ensures forall k :: k != id ==> SameLists(c, next, k)
  {
    next := c;
    if id in g.members {
      if item.state.Active? && item.carryMode.Unqualified? {
        next := next.(unqualified := c.unqualified + {id});
      } else if item.state.Active? {
        next := next.(carried := c.carried[id := Carried(item)]);
      } else if item.state.Terminal? && item.ending.Some? {
        next := next.(terminalSince := c.terminalSince[id := item.ending.value]);
      } else {
        next := next.(unverified := c.unverified + {id});
      }
      return;
    }
    if !item.state.Terminal? && item.createdAtMs >= g.createdAtMs {
      if item.carryMode.Unqualified? {
        next := next.(unqualified := c.unqualified + {id});
      } else {
        next := next.(newWork := c.newWork[id := Carried(item)]);
      }
    }
  }

  lemma LooksAtOneMore(c: Closure, next: Closure, t: Tables, g: Generation, done: set<string>, id: string)
    requires Lists(c, t, g, done) && id in t.items && Listed(next, id, t.items[id], g)
    requires forall k :: k != id ==> SameLists(c, next, k)
    ensures Lists(next, t, g, done + {id})
  {
    forall k | OnSomeList(next, k) ensures k in done + {id} {
      assert k != id ==> SameLists(c, next, k) && OnSomeList(c, k);
    }
    forall k | k in done + {id} && k in t.items ensures Listed(next, k, t.items[k], g) {
      assert k != id ==> SameLists(c, next, k) && Listed(c, k, t.items[k], g);
    }
  }

  lemma ClosesWhenNothingRefuses(t: Tables, n: nat, c: Closure)
    requires RowsParse(t) && n in t.generations && !t.generations[n].state.Superseded?
    requires Lists(c, t, t.generations[n], t.items.Keys)
    ensures c.unverified == {} && c.unqualified == {} && c.newWork == map[] <==> MayClose(t, n)
  {
    var g := t.generations[n];
    if c.unverified == {} && c.unqualified == {} && c.newWork == map[] {
      forall id | id in t.items
        ensures StandingOf(id, t.items[id], g) !in {NotVerified, NotYetQualified, New}
      {
        assert Listed(c, id, t.items[id], g);
      }
    } else {
      var id :| id in c.unverified || id in c.unqualified || id in c.newWork;
      assert OnSomeList(c, id) && Listed(c, id, t.items[id], g);
    }
  }

  method CloseContinuitySnapshot(store: Store, n: nat, nowMs: int) returns (c: Closure)
    requires store.Valid()
    modifies store`generations
    ensures store.Valid() && store.Now() == ClosedUp(old(store.Now()), n, nowMs)
    ensures c.refusal.None? <==> MayClose(old(store.Now()), n)
    ensures n !in old(store.generations) <==> c.refusal == Some(UnknownGeneration)
    ensures c.refusal == Some(SupersededGeneration) <==>
              n in old(store.generations) && old(store.generations)[n].state.Superseded?
    ensures n in old(store.generations) && !old(store.generations)[n].state.Superseded? ==>
              && Lists(c, old(store.Now()), old(store.generations)[n], old(store.items).Keys)
              && (c.refusal == Some(Unverified) <==> c.unverified != {})
              && (c.refusal == Some(NotQualified) <==> c.unverified == {} && c.unqualified != {})
              && (c.refusal == Some(NewWork) <==> c.unverified == {} && c.unqualified == {} && c.newWork != map[])
  {
    c := Closure(Some(UnknownGeneration), map[], map[], map[], {}, {});
    if n !in store.generations {
      return;
    }
    var generation := store.generations[n];
    if generation.state.Superseded? {
      return c.(refusal := Some(SupersededGeneration));
    }
    ghost var t := store.Now();
    var todo := store.items.Keys;
    while todo != {}
      invariant todo <= t.items.Keys && store.Now() == t && Lists(c, t, generation, t.items.Keys - todo)
    {
      var id :| id in todo;
      var next := LookAt(id, store.items[id], generation, c);
      LooksAtOneMore(c, next, t, generation, t.items.Keys - todo, id);
      c, todo := next, todo - {id};
      assert t.items.Keys - todo == t.items.Keys - (todo + {id}) + {id};
    }
    assert t.items.Keys - todo == t.items.Keys;
    var refusal := if c.unverified != {} then Some(Unverified) else if c.unqualified != {} then Some(NotQualified)
                   else if c.newWork != map[] then Some(NewWork) else None;
    c := c.(refusal := refusal);
    ClosesWhenNothingRefuses(t, n, c);
    assert store.Now() == t && (refusal.None? <==> MayClose(t, n));
    if refusal.None? && generation.state.Open? {
      store.SetGenerationState(n, Closed, nowMs);
    }
  }
}
