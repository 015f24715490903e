/** Snapshots, carryovers that may crash, and everything else the record goes through, in any order. */
module HandoffRuns {
  import opened Basics
  import opened ContinuityStore
  import Snapshots
  import ContinuityRuns
  import opened Handoff

  /** A snapshot some process holds and may carry over, also late and more than once. */
  datatype Held = Held(generation: nat, items: map<string, Snapshots.CarriedItem>)

  datatype Life = Life(host: Host, held: seq<Held>)

  datatype Move =
    | Record(step: ContinuityRuns.Step)
    | CarryOver(held: nat, carries: seq<Carry>, nowMs: int, budget: nat)

  /** No cleanup comes between, and only a carryover records a relaunch. */
  predicate IsBetween(s: ContinuityRuns.Step) {
    !s.action.Clean? && !s.action.DropGenerations? && !s.action.RecordRelaunch?
  }

  ghost predicate Allowed(l: Life, m: Move) {
    match m
    case Record(step) => IsBetween(step)
    case CarryOver(k, carries, _, _) =>
      k < |l.held| && forall c :: c in carries ==> c.id in l.held[k].items && c.item == l.held[k].items[c.id]
  }

  /** What a snapshot taken now would hold. */
  ghost function Taken(t: Tables): (h: Held)
    requires Snapshots.MaySnapshot(t)
    ensures h.generation == Latest(t.generations.Keys) + 1
    ensures forall id :: id in h.items ==> id in t.items && h.items[id].relaunch == t.items[id].relaunch
  {
    Held(Latest(t.generations.Keys) + 1,
         map id | id in t.items && t.items[id].state.Active? && Snapshots.CanCarry(t.items[id]) ::
           Snapshots.Carried(t.items[id]))
  }

  ghost function Moved(l: Life, m: Move): Life
    requires Allowed(l, m)
  {
    match m
    case Record(step) =>
      var host := l.host.(tables := ContinuityRuns.After(l.host.tables, step));
      if step.action.Snapshot? && Snapshots.MaySnapshot(l.host.tables) then Life(host, l.held + [Taken(l.host.tables)])
      else Life(host, l.held)
    case CarryOver(k, carries, nowMs, budget) =>
      l.(host := InvokedNow(l.host, l.held[k].generation, carries, nowMs, budget))
  }

  ghost predicate AllowedAll(l: Life, moves: seq<Move>)
    decreases moves
  {
    moves != [] ==> Allowed(l, moves[0]) && AllowedAll(Moved(l, moves[0]), moves[1..])
  }

  ghost function MovedAll(l: Life, moves: seq<Move>): Life
    requires AllowedAll(l, moves)
    decreases moves
  {
    if moves == [] then l else MovedAll(Moved(l, moves[0]), moves[1..])
  }

  /** Over any run, crashes included, no launch is started twice for one generation. */
  lemma {:induction false} StartedAtMostOnce(l: Life, moves: seq<Move>)
    requires AllowedAll(l, moves) && Fenced(l.host)
    ensures Fenced(MovedAll(l, moves).host) && NoDup(MovedAll(l, moves).host.spawned)
    decreases moves
  {
    if moves == [] {
      FencedStartsOnce(l.host);
    } else {
      match moves[0] {
        case Record(_) =>
        case CarryOver(k, carries, nowMs, budget) =>
          var g, t := l.held[k].generation, l.host.tables;
          var closed := g in t.generations && t.generations[g].state.Closed?;
          InvocationKeepsFenced(l.host, closed, g, carries, nowMs, budget);
      }
      StartedAtMostOnce(Moved(l, moves[0]), moves[1..]);
    }
  }

  // ----- After its relaunch was recorded -----

  ghost predicate IsRelaunchUpTo(id: string, r: Relaunch, n: nat) {
    exists g: nat :: g <= n && r.outputPath == Fence(FenceName(id, g))
  }

  /**
   The launch's relaunch is recorded, it is of a generation no newer than n, and every
   snapshot newer than n holds it.
   */
  ghost predicate Settled(l: Life, id: string, r: Relaunch, n: nat) {
    && id in l.host.tables.items && l.host.tables.items[id].relaunch == Some(r)
    && IsRelaunchUpTo(id, r, n)
    && n <= Latest(l.host.tables.generations.Keys)
    && forall k :: 0 <= k < |l.held| && l.held[k].generation > n && id in l.held[k].items ==>
         l.held[k].items[id].relaunch == Some(r)
  }

  /** What the record keeps while nothing is cleaned up. */
  ghost predicate Grows(t: Tables, later: Tables) {
    && t.generations.Keys <= later.generations.Keys
    && forall id :: id in t.items && t.items[id].relaunch.Some? ==>
         id in later.items && later.items[id].relaunch == t.items[id].relaunch
  }

  /** Every relaunch recorded now was recorded before, or has the output of generation g. */
  ghost predicate RelaunchesAre(t: Tables, later: Tables, g: Option<nat>) {
    forall id :: id in later.items && later.items[id].relaunch.Some? ==>
      || (id in t.items && t.items[id].relaunch == later.items[id].relaunch)
      || (g.Some? && later.items[id].relaunch.value.outputPath == Fence(FenceName(id, g.value)))
  }

  lemma {:induction false} AcknowledgeGrows(t: Tables, keys: seq<string>)
    ensures Grows(t, AcknowledgedAll(t, keys)) && RelaunchesAre(t, AcknowledgedAll(t, keys), None)
    decreases keys
  {
    if keys != [] {
      AcknowledgeGrows(Acknowledged(t, keys[0]), keys[1..]);
    }
  }

  lemma StepGrows(t: Tables, s: ContinuityRuns.Step)
    requires IsBetween(s)
    ensures Grows(t, ContinuityRuns.After(t, s)) && RelaunchesAre(t, ContinuityRuns.After(t, s), None)
  {
    match s.action
    case Acknowledge(keys) => AcknowledgeGrows(t, Distinct(keys));
    case Launch(_, _, _) =>
    case Progress(_, _) =>
    case NoteProcess(_, _) =>
    case End(_, _, _) =>
    case Verify(_, _) =>
    case Qualify(_, _, _, _) =>
    case Snapshot(_) =>
    case Close(_) =>
  }

  ghost predicate RelaunchesFence(effects: seq<Effect>, g: nat) {
    forall e :: e in effects && e.NoteRelaunch? ==> e.relaunch.outputPath == Fence(FenceName(e.id, g))
  }

  lemma {:induction false} EffectsGrow(h: Host, effects: seq<Effect>, g: nat)
    requires RelaunchesFence(effects, g)
    ensures Grows(h.tables, AfterAll(h, effects).tables)
            && RelaunchesAre(h.tables, AfterAll(h, effects).tables, Some(g))
    decreases effects
  {
    if effects != [] {
      FirstIsIn(effects);
      EffectsGrow(After(h, effects[0]), effects[1..], g);
    }
  }

  lemma {:induction false} InvocationGrows(h: Host, closed: bool, g: nat, carries: seq<Carry>, nowMs: int, budget: nat)
    ensures Grows(h.tables, Invoked(h, closed, g, carries, nowMs, budget).tables)
    ensures RelaunchesAre(h.tables, Invoked(h, closed, g, carries, nowMs, budget).tables, Some(g))
    decreases carries
  {
    if carries != [] {
      var c := carries[0];
      var effects := PlanFor(h, closed, g, c.id, c.item, c.outside, nowMs).effects;
      assert RelaunchesFence(effects, g);
      if |effects| > budget {
        EffectsGrow(h, effects[..budget], g);
      } else {
        EffectsGrow(h, effects, g);
        InvocationGrows(AfterAll(h, effects), closed, g, carries[1..], nowMs, budget - |effects|);
      }
    }
  }

  lemma GrowingIsMonotone(t: Tables, later: Tables)
    requires Grows(t, later)
    ensures Latest(t.generations.Keys) <= Latest(later.generations.Keys)
  {
    assert Latest(t.generations.Keys) != 0 ==> Latest(t.generations.Keys) in later.generations;
  }

  /** No monitor of this launch is started for a generation newer than n. */
  ghost predicate NoneNewer(spawned: seq<Spawn>, later: seq<Spawn>, id: string, n: nat) {
    && spawned <= later
    && forall k :: |spawned| <= k < |later| && later[k].launchId == id ==> later[k].generation <= n
  }

  lemma OtherGenerationIsSettled(h: Host, g: nat, c: Carry, r: Relaunch, n: nat)
    requires g > n && c.item.relaunch == Some(r) && IsRelaunchUpTo(c.id, r, n)
    ensures IsSettled(h, g, c)
  {
    var s: nat :| s <= n && r.outputPath == Fence(FenceName(c.id, s));
    FencesCollideIff(c.id, s, c.id, g);
  }

  lemma {:induction false} InvocationStartsNone(h: Host, closed: bool, g: nat, carries: seq<Carry>, nowMs: int,
                                                budget: nat, id: string, r: Relaunch, n: nat)
    requires IsRelaunchUpTo(id, r, n)
    requires g > n ==> forall c :: c in carries && c.id == id ==> c.item.relaunch == Some(r)
    ensures NoneNewer(h.spawned, Invoked(h, closed, g, carries, nowMs, budget).spawned, id, n)
    decreases carries
  {
    if carries != [] {
      FirstIsIn(carries);
      var c := carries[0];
      var effects := PlanFor(h, closed, g, c.id, c.item, c.outside, nowMs).effects;
      var m := Min(|effects|, budget);
      var next := AfterAll(h, effects[..m]);
      PlanStarts(h, closed, g, c, nowMs, m);
      if c.id == id && g > n {
        OtherGenerationIsSettled(h, g, c, r, n);
        NotStartedAgain(h, closed, g, c, nowMs, m);
      }
      assert NoneNewer(h.spawned, next.spawned, id, n);
      if |effects| <= budget {
        assert effects[..m] == effects;
        InvocationStartsNone(next, closed, g, carries[1..], nowMs, budget - |effects|, id, r, n);
      }
    }
  }

  lemma MoveStaysSettled(l: Life, m: Move, id: string, r: Relaunch, n: nat)
    requires Allowed(l, m) && Settled(l, id, r, n)
    ensures Settled(Moved(l, m), id, r, n) && NoneNewer(l.host.spawned, Moved(l, m).host.spawned, id, n)
  {
    var t := l.host.tables;
    match m
    case Record(step) =>
      StepGrows(t, step);
      GrowingIsMonotone(t, ContinuityRuns.After(t, step));
    case CarryOver(k, carries, nowMs, budget) =>
      var g := l.held[k].generation;
      var closed := g in t.generations && t.generations[g].state.Closed?;
      InvocationGrows(l.host, closed, g, carries, nowMs, budget);
      GrowingIsMonotone(t, Moved(l, m).host.tables);
      InvocationStartsNone(l.host, closed, g, carries, nowMs, budget, id, r, n);
  }

  /** Once a monitor's relaunch is recorded, no snapshot of a later generation starts it again. */
  lemma {:induction false} RecordedRelaunchStays(l: Life, moves: seq<Move>, id: string, r: Relaunch, n: nat)
    requires AllowedAll(l, moves) && Settled(l, id, r, n)
    ensures Settled(MovedAll(l, moves), id, r, n)
    ensures NoneNewer(l.host.spawned, MovedAll(l, moves).host.spawned, id, n)
    decreases moves
  {
    if moves != [] {
      MoveStaysSettled(l, moves[0], id, r, n);
      RecordedRelaunchStays(Moved(l, moves[0]), moves[1..], id, r, n);
    }
  }

  // ----- What is recorded is always a relaunch of a generation taken before -----

  ghost predicate Tracked(l: Life) {
    var n := Latest(l.host.tables.generations.Keys);
    && (forall k :: 0 <= k < |l.held| ==> l.held[k].generation <= n)
    && forall id :: id in l.host.tables.items && l.host.tables.items[id].relaunch.Some? ==>
         IsRelaunchUpTo(id, l.host.tables.items[id].relaunch.value, n)
  }

  lemma RelaunchUpToMore(id: string, r: Relaunch, n: nat, m: nat)
    requires IsRelaunchUpTo(id, r, n) && n <= m
    ensures IsRelaunchUpTo(id, r, m)
  {
  }

  lemma RelaunchesStayTracked(t: Tables, later: Tables, g: Option<nat>)
    requires Latest(t.generations.Keys) <= Latest(later.generations.Keys) && RelaunchesAre(t, later, g)
    requires g.Some? ==> g.value <= Latest(later.generations.Keys)
    requires forall id :: id in t.items && t.items[id].relaunch.Some? ==>
               IsRelaunchUpTo(id, t.items[id].relaunch.value, Latest(t.generations.Keys))
    ensures forall id :: id in later.items && later.items[id].relaunch.Some? ==>
              IsRelaunchUpTo(id, later.items[id].relaunch.value, Latest(later.generations.Keys))
  {
    forall id | id in later.items && later.items[id].relaunch.Some?
      ensures IsRelaunchUpTo(id, later.items[id].relaunch.value, Latest(later.generations.Keys))
    {
      if id in t.items && t.items[id].relaunch == later.items[id].relaunch {
        RelaunchUpToMore(id, later.items[id].relaunch.value, Latest(t.generations.Keys),
                         Latest(later.generations.Keys));
      }
    }
  }

  lemma MoveStaysTracked(l: Life, m: Move)
    requires Allowed(l, m) && Tracked(l)
    ensures Tracked(Moved(l, m))
  {
    var t, u := l.host.tables, Moved(l, m).host.tables;
    match m
    case Record(step) =>
      StepGrows(t, step);
      GrowingIsMonotone(t, u);
      RelaunchesStayTracked(t, u, None);
      if step.action.Snapshot? && Snapshots.MaySnapshot(t) {
        assert Latest(t.generations.Keys) + 1 in u.generations;
      }
    case CarryOver(k, carries, nowMs, budget) =>
      var g := l.held[k].generation;
      InvocationGrows(l.host, g in t.generations && t.generations[g].state.Closed?, g, carries, nowMs, budget);
      GrowingIsMonotone(t, u);
      RelaunchesStayTracked(t, u, Some(g));
  }

  lemma {:induction false} EveryRunStaysTracked(l: Life, moves: seq<Move>)
    requires AllowedAll(l, moves) && Tracked(l)
    ensures Tracked(MovedAll(l, moves))
    decreases moves
  {
    if moves != [] {
      MoveStaysTracked(l, moves[0]);
      EveryRunStaysTracked(Moved(l, moves[0]), moves[1..]);
    }
  }

  /**
   From any run at whose end a monitor's relaunch is recorded, no further run starts that
   monitor for a generation taken later.
   */
  lemma RelaunchedIsNeverRestarted(l: Life, moves: seq<Move>, further: seq<Move>, id: string)
    requires Tracked(l) && AllowedAll(l, moves) && AllowedAll(MovedAll(l, moves), further)
    requires var t := MovedAll(l, moves).host.tables; id in t.items && t.items[id].relaunch.Some?
    ensures var now := MovedAll(l, moves);
            NoneNewer(now.host.spawned, MovedAll(now, further).host.spawned, id,
                      Latest(now.host.tables.generations.Keys))
  {
    EveryRunStaysTracked(l, moves);
    var now := MovedAll(l, moves);
    var r := now.host.tables.items[id].relaunch.value;
    assert IsRelaunchUpTo(id, r, Latest(now.host.tables.generations.Keys));
    RecordedRelaunchStays(now, further, id, r, Latest(now.host.tables.generations.Keys));
  }

  // ----- Launches whose names look the same in a file name -----

  /**
   Of two launches whose names look the same, once one was started for a generation the other is
   reported and not started.
   */
  lemma LookalikeIsNotStarted(h: Host, g: nat, a: string, b: string, item: Snapshots.CarriedItem, o: Outside,
                              nowMs: int)
    requires item.mechanism.MonitorRelaunch? && item.relaunch.None? && o.resolves && o.shellFound
    requires Sanitised(a) == Sanitised(b) && FenceName(a, g) in h.fences
    ensures PlanFor(h, false, g, b, item, o, nowMs) == Plan(AlreadyRelaunched(Fence(FenceName(a, g))), [])
  {
    FencesCollideIff(a, g, b, g);
  }

  lemma {:induction false} InvocationKeepsSpawned(h: Host, closed: bool, g: nat, carries: seq<Carry>, nowMs: int,
                                                  budget: nat)
    ensures h.spawned <= Invoked(h, closed, g, carries, nowMs, budget).spawned
    decreases carries
  {
    if carries != [] {
      var c := carries[0];
      var effects := PlanFor(h, closed, g, c.id, c.item, c.outside, nowMs).effects;
      var n := Min(|effects|, budget);
      PlanStarts(h, closed, g, c, nowMs, n);
      if |effects| <= budget {
        assert effects[..n] == effects;
        InvocationKeepsSpawned(AfterAll(h, effects), closed, g, carries[1..], nowMs, budget - |effects|);
      }
    }
  }

  lemma {:induction false} SpawnedStays(l: Life, moves: seq<Move>, s: Spawn)
    requires AllowedAll(l, moves) && s in l.host.spawned
    ensures s in MovedAll(l, moves).host.spawned
    decreases moves
  {
    if moves != [] {
      match moves[0] {
        case Record(_) =>
        case CarryOver(k, carries, nowMs, budget) =>
          var g, t := l.held[k].generation, l.host.tables;
          var closed := g in t.generations && t.generations[g].state.Closed?;
          InvocationKeepsSpawned(l.host, closed, g, carries, nowMs, budget);
      }
      SpawnedStays(Moved(l, moves[0]), moves[1..], s);
    }
  }

  /** Of two launches whose names look the same only one is ever started for a generation. */
  lemma LookalikeIsNeverStarted(l: Life, moves: seq<Move>, a: string, b: string, g: nat)
    requires AllowedAll(l, moves) && Fenced(l.host) && Spawn(a, g) in l.host.spawned
    requires a != b && Sanitised(a) == Sanitised(b)
    ensures Spawn(b, g) !in MovedAll(l, moves).host.spawned
  {
    SpawnedStays(l, moves, Spawn(a, g));
    StartedAtMostOnce(l, moves);
    FencesCollideIff(a, g, b, g);
  }

  /** The name of a launch. */
  function LaunchName(family: string, key: string, toolUseId: string): string {
    family + ":" + key + ":" + toolUseId
  }

  /** Two monitors with other keys and other tool uses may have names that look the same. */
  lemma LaunchNamesMayLookAlike()
    ensures var a, b := LaunchName("monitor", "m", "1_2"), LaunchName("monitor", "m_1", "2");
            a != b && Sanitised(a) == Sanitised(b)
  {
    var a, b := LaunchName("monitor", "m", "1_2"), LaunchName("monitor", "m_1", "2");
    assert a[9] == ':' && b[9] == '_';
    forall i | 0 <= i < |a| ensures Sanitised(a)[i] == Sanitised(b)[i] {
      assert i != 9 && i != 11 ==> a[i] == b[i];
      assert a[11] == '_' && b[11] == ':';
    }
  }

  lemma {:induction false} MovesExtend(l: Life, moves: seq<Move>, m: Move)
    requires AllowedAll(l, moves) && Allowed(MovedAll(l, moves), m)
    ensures AllowedAll(l, moves + [m]) && MovedAll(l, moves + [m]) == Moved(MovedAll(l, moves), m)
    decreases moves
  {
    if moves == [] {
      assert [m][1..] == [] && [] + [m] == [m];
    } else {
      assert (moves + [m])[1..] == moves[1..] + [m];
      MovesExtend(Moved(l, moves[0]), moves[1..], m);
    }
  }

  const START := Life(Host(ContinuityRuns.NOTHING_RECORDED, {}, []), [])
  const MONITOR := Work(Monitor, "", None, None, None)
  const MONITOR_IDENTITY := MonitorLaunch("call", Elsewhere("rollout"))

  const LAUNCHED := Item(MONITOR, 0, Active, Unqualified, {}, None, None, None, None, 0, 0, 0)
  const QUALIFIED := LAUNCHED.(carryMode := Reconstruct, identity := Some(MONITOR_IDENTITY))

  /** Surroundings in which everything works, the output's identity included. */
  function AllWorks(id: string): Outside {
    Outside(true, true, true, true, true, Some(PosixOutput(Fence(FenceName(id, 1)), "1", "1")), None, "")
  }

  function LaunchOf(id: string): Move {
    Record(ContinuityRuns.Step(ContinuityRuns.Launch(id, MONITOR, None), 0))
  }

  function QualifyOf(id: string): Move {
    Record(ContinuityRuns.Step(ContinuityRuns.Qualify(id, Reconstruct, {}, MONITOR_IDENTITY), 0))
  }

  const TAKE_SNAPSHOT := Record(ContinuityRuns.Step(ContinuityRuns.Snapshot("session"), 0))

  /** Two monitors are launched, qualified and taken into a snapshot. */
  function TwoMonitors(a: string, b: string): seq<Move> {
    [LaunchOf(a)] + [LaunchOf(b)] + [QualifyOf(a)] + [QualifyOf(b)] + [TAKE_SNAPSHOT]
  }

  function MonitorCarry(id: string): Carry {
    Carry(id, Snapshots.Carried(QUALIFIED), AllWorks(id))
  }

  lemma TwoMonitorsAreLaunched(a: string, b: string)
    requires a != b
    ensures var moves := [LaunchOf(a)] + [LaunchOf(b)];
      AllowedAll(START, moves)
      && MovedAll(START, moves) == START.(host := START.host.(tables := ContinuityRuns.NOTHING_RECORDED.(
           items := map[a := LAUNCHED, b := LAUNCHED])))
  {
    MovesExtend(START, [], LaunchOf(a));
    assert [] + [LaunchOf(a)] == [LaunchOf(a)];
    var one := [LaunchOf(a)];
    assert MovedAll(START, one).host.tables.items == map[a := LAUNCHED];
    MovesExtend(START, one, LaunchOf(b));
  }

  lemma TwoMonitorsAreQualified(a: string, b: string)
    requires a != b
    ensures var moves := [LaunchOf(a)] + [LaunchOf(b)] + [QualifyOf(a)] + [QualifyOf(b)];
      AllowedAll(START, moves)
      && MovedAll(START, moves) == START.(host := START.host.(tables := ContinuityRuns.NOTHING_RECORDED.(
           items := map[a := QUALIFIED, b := QUALIFIED])))
  {
    TwoMonitorsAreLaunched(a, b);
    var two := [LaunchOf(a)] + [LaunchOf(b)];
    MovesExtend(START, two, QualifyOf(a));
    var three := two + [QualifyOf(a)];
    assert MovedAll(START, three).host.tables.items == map[a := QUALIFIED, b := LAUNCHED];
    MovesExtend(START, three, QualifyOf(b));
  }

  lemma TwoMonitorsAreHeld(a: string, b: string)
    requires a != b
    ensures AllowedAll(START, TwoMonitors(a, b))
    ensures var l := MovedAll(START, TwoMonitors(a, b));
      && l.host.fences == {} && l.host.spawned == [] && |l.held| == 1 && l.held[0].generation == 1
      && l.host.tables.generations.Keys == {1} && l.host.tables.generations[1].state.Open?
      && l.held[0].items == map[a := Snapshots.Carried(QUALIFIED), b := Snapshots.Carried(QUALIFIED)]
      && IsUnfinished(l.host.tables, a) && l.host.tables.items[a].relaunch.None?
  {
    TwoMonitorsAreQualified(a, b);
    var moves := [LaunchOf(a)] + [LaunchOf(b)] + [QualifyOf(a)] + [QualifyOf(b)];
    MovesExtend(START, moves, TAKE_SNAPSHOT);
  }

  /** A monitor is started, and its relaunch recorded, when everything works. */
  function StartEffects(id: string): seq<Effect> {
    var name := FenceName(id, 1);
    [MakeFence(name), StartMonitor(Spawn(id, 1)),
     NoteRelaunch(id, Relaunch(Fence(name), AllWorks(id).output.value, None), 0)]
  }

  lemma MonitorIsStarted(h: Host, id: string)
    requires FenceName(id, 1) !in h.fences
    ensures PlanFor(h, false, 1, id, Snapshots.Carried(QUALIFIED), AllWorks(id), 0)
            == Plan(RelaunchedNow(Fence(FenceName(id, 1))), StartEffects(id))
    ensures AfterAll(h, StartEffects(id)).spawned == h.spawned + [Spawn(id, 1)]
    ensures AfterAll(h, StartEffects(id)).fences == h.fences + {FenceName(id, 1)}
    ensures AfterAll(h, StartEffects(id)).tables == Relaunched(h.tables, id, StartEffects(id)[2].relaunch, 0)
  {
    var effects := StartEffects(id);
    SomeEffects(h, effects[0], effects[1], effects[2]);
  }

  lemma TwoAreCarried(h: Host, a: string, b: string)
    requires a != b && Sanitised(a) == Sanitised(b) && h.fences == {} && h.spawned == []
    ensures var carries, path := [MonitorCarry(a), MonitorCarry(b)], Fence(FenceName(a, 1));
      && Reported(h, false, 1, carries, 0, 9) == [RelaunchedNow(path), AlreadyRelaunched(path)]
      && Invoked(h, false, 1, carries, 0, 9).spawned == [Spawn(a, 1)]
      && Invoked(h, false, 1, carries, 0, 9).tables.items
         == Relaunched(h.tables, a, StartEffects(a)[2].relaunch, 0).items
  {
    var carries := [MonitorCarry(a), MonitorCarry(b)];
    var next := AfterAll(h, StartEffects(a));
    MonitorIsStarted(h, a);
    LookalikeIsNotStarted(next, 1, a, b, Snapshots.Carried(QUALIFIED), AllWorks(b), 0);
    assert carries[1..] == [MonitorCarry(b)] && [MonitorCarry(b)][1..] == [];
    assert Reported(next, false, 1, [MonitorCarry(b)], 0, 6) == [AlreadyRelaunched(Fence(FenceName(a, 1)))];
    assert Invoked(next, false, 1, [MonitorCarry(b)], 0, 6) == Invoked(next, false, 1, [], 0, 6);
  }

  /**
   Of two launches whose names look the same the first is started, the second is reported as
   relaunched, and no further run starts it for that generation.
   */
  lemma LookalikeRun(a: string, b: string, further: seq<Move>)
    requires a != b && Sanitised(a) == Sanitised(b)
    requires var carry := CarryOver(0, [MonitorCarry(a), MonitorCarry(b)], 0, 9);
             AllowedAll(START, TwoMonitors(a, b)) && Allowed(MovedAll(START, TwoMonitors(a, b)), carry)
             ==> AllowedAll(Moved(MovedAll(START, TwoMonitors(a, b)), carry), further)
    ensures var carry := CarryOver(0, [MonitorCarry(a), MonitorCarry(b)], 0, 9);
      && AllowedAll(START, TwoMonitors(a, b))
      && var l := MovedAll(START, TwoMonitors(a, b));
      && Allowed(l, carry)
      && var path := Fence(FenceName(a, 1));
      && ReportedNow(l.host, 1, carry.carries, 0, 9) == [RelaunchedNow(path), AlreadyRelaunched(path)]
      && Moved(l, carry).host.spawned == [Spawn(a, 1)]
      && a in Moved(l, carry).host.tables.items && Moved(l, carry).host.tables.items[a].relaunch.Some?
      && Spawn(b, 1) !in MovedAll(Moved(l, carry), further).host.spawned
  {
    TwoMonitorsAreHeld(a, b);
    var l := MovedAll(START, TwoMonitors(a, b));
    TwoAreCarried(l.host, a, b);
    var carry := CarryOver(0, [MonitorCarry(a), MonitorCarry(b)], 0, 9);
    assert Allowed(l, carry);
    InvocationKeepsFenced(l.host, false, 1, carry.carries, 0, 9);
    LookalikeIsNeverStarted(Moved(l, carry), further, a, b, 1);
  }

  // ----- Outputs without a monitor -----

  ghost predicate IsStarted(h: Host, name: string) {
    exists s :: s in h.spawned && FenceName(s.launchId, s.generation) == name
  }

  /** Every output file has a monitor that was started behind it. */
  ghost predicate AllStarted(h: Host) {
    forall name :: name in h.fences ==> IsStarted(h, name)
  }

  /** Of the plan just as much is done as makes the output, or its monitor cannot be started. */
  predicate LeavesOpen(effects: seq<Effect>, n: nat) {
    n > 0 && effects != [] && effects[0].MakeFence? && (n == 1 || |effects| == 1 || !effects[1].StartMonitor?)
  }

  /** What the first effects of a plan do to outputs and monitors. */
  lemma PlanDoes(h: Host, closed: bool, g: nat, c: Carry, nowMs: int, n: nat)
    requires n <= |PlanFor(h, closed, g, c.id, c.item, c.outside, nowMs).effects|
    ensures var effects := PlanFor(h, closed, g, c.id, c.item, c.outside, nowMs).effects;
            var later := AfterAll(h, effects[..n]);
      if n > 0 && effects[0].MakeFence? then
        && FenceName(c.id, g) !in h.fences && later.fences == h.fences + {FenceName(c.id, g)}
        && later.spawned == (if LeavesOpen(effects, n) then h.spawned else h.spawned + [Spawn(c.id, g)])
      else later.fences == h.fences && later.spawned == h.spawned
  {
    var effects := PlanFor(h, closed, g, c.id, c.item, c.outside, nowMs).effects;
    if n > 0 {
      if effects[0].MakeFence? {
        assert FenceName(c.id, g) !in h.fences && effects[0].name == FenceName(c.id, g) && |effects| >= 2;
        assert effects[1].StartMonitor? ==> effects[1].spawn == Spawn(c.id, g);
        assert |effects| == 3 ==> effects[1].StartMonitor? && !effects[2].MakeFence? && !effects[2].StartMonitor?;
      } else {
        assert |effects| == 1 && effects[0].NoteFailure?;
      }
      EffectsDo(h, effects, n);
    } else {
      assert effects[..0] == [];
    }
  }

  /** A plan leaves an output without its monitor exactly by a crash between the two, or a failed start. */
  lemma PlanLeavesOpenIff(h: Host, closed: bool, g: nat, c: Carry, nowMs: int, n: nat)
    requires Fenced(h) && AllStarted(h) && n <= |PlanFor(h, closed, g, c.id, c.item, c.outside, nowMs).effects|
    ensures var effects := PlanFor(h, closed, g, c.id, c.item, c.outside, nowMs).effects;
            AllStarted(AfterAll(h, effects[..n])) <==> !LeavesOpen(effects, n)
  {
    var effects := PlanFor(h, closed, g, c.id, c.item, c.outside, nowMs).effects;
    var later, name := AfterAll(h, effects[..n]), FenceName(c.id, g);
    PlanDoes(h, closed, g, c, nowMs, n);
    if effects != [] && effects[0].MakeFence? && n > 0 {
      if LeavesOpen(effects, n) {
        assert !IsStarted(later, name) && name in later.fences;
      } else {
        assert later.spawned[|h.spawned|] == Spawn(c.id, g);
        forall x | x in later.fences ensures IsStarted(later, x) {
          assert x != name ==> IsStarted(h, x);
        }
      }
    } else {
      assert later.fences == h.fences && later.spawned == h.spawned;
      forall x | x in later.fences ensures IsStarted(later, x) {
        assert IsStarted(h, x);
      }
    }
  }

  /** An output left without its monitor stays so: only an output that is not there yet gets one. */
  lemma PlanKeepsOpen(h: Host, closed: bool, g: nat, c: Carry, nowMs: int, n: nat)
    requires !AllStarted(h) && n <= |PlanFor(h, closed, g, c.id, c.item, c.outside, nowMs).effects|
    ensures !AllStarted(AfterAll(h, PlanFor(h, closed, g, c.id, c.item, c.outside, nowMs).effects[..n]))
  {
    var later := AfterAll(h, PlanFor(h, closed, g, c.id, c.item, c.outside, nowMs).effects[..n]);
    PlanDoes(h, closed, g, c, nowMs, n);
    var name :| name in h.fences && !IsStarted(h, name);
    assert name in later.fences && !IsStarted(later, name);
  }

  /** An item of the invocation leaves an output without its monitor. */
  ghost predicate SomeLeavesOpen(h: Host, closed: bool, g: nat, carries: seq<Carry>, nowMs: int, budget: nat)
    decreases carries
  {
    carries != [] &&
    var effects := PlanFor(h, closed, g, carries[0].id, carries[0].item, carries[0].outside, nowMs).effects;
    || LeavesOpen(effects, Min(|effects|, budget))
    || (|effects| <= budget
        && SomeLeavesOpen(AfterAll(h, effects), closed, g, carries[1..], nowMs, budget - |effects|))
  }

  lemma SameOutputs(h: Host, later: Host)
    requires later.fences == h.fences && later.spawned == h.spawned
    ensures AllStarted(later) <==> AllStarted(h)
  {
    assert forall name :: IsStarted(later, name) <==> IsStarted(h, name);
  }

  lemma {:induction false} InvocationLeavesOpenIff(h: Host, closed: bool, g: nat, carries: seq<Carry>, nowMs: int,
                                                   budget: nat)
    requires Fenced(h)
    ensures AllStarted(Invoked(h, closed, g, carries, nowMs, budget))
            <==> AllStarted(h) && !SomeLeavesOpen(h, closed, g, carries, nowMs, budget)
    decreases carries
  {
    if carries == [] {
      SameOutputs(h, Invoked(h, closed, g, carries, nowMs, budget));
    } else {
      var c := carries[0];
      var effects := PlanFor(h, closed, g, c.id, c.item, c.outside, nowMs).effects;
      var n := Min(|effects|, budget);
      if AllStarted(h) {
        PlanLeavesOpenIff(h, closed, g, c, nowMs, n);
      } else {
        PlanKeepsOpen(h, closed, g, c, nowMs, n);
      }
      if |effects| <= budget {
        PlanStarts(h, closed, g, c, nowMs, n);
        StartKeepsFenced(h, AfterAll(h, effects[..n]), Spawn(c.id, g));
        assert effects[..n] == effects;
        InvocationLeavesOpenIff(AfterAll(h, effects), closed, g, carries[1..], nowMs, budget - |effects|);
      }
    }
  }

  ghost predicate MoveLeavesOpen(l: Life, m: Move)
    requires Allowed(l, m)
  {
    m.CarryOver?
    && var g, t := l.held[m.held].generation, l.host.tables;
       SomeLeavesOpen(l.host, g in t.generations && t.generations[g].state.Closed?, g, m.carries, m.nowMs, m.budget)
  }

  ghost predicate EverLeavesOpen(l: Life, moves: seq<Move>)
    requires AllowedAll(l, moves)
    decreases moves
  {
    moves != [] && (MoveLeavesOpen(l, moves[0]) || EverLeavesOpen(Moved(l, moves[0]), moves[1..]))
  }

  lemma MoveKeepsFenced(l: Life, m: Move)
    requires Allowed(l, m) && Fenced(l.host)
    ensures Fenced(Moved(l, m).host)
    ensures AllStarted(Moved(l, m).host) <==> AllStarted(l.host) && !MoveLeavesOpen(l, m)
  {
    match m
    case Record(_) => SameOutputs(l.host, Moved(l, m).host);
    case CarryOver(k, carries, nowMs, budget) =>
      var g, t := l.held[k].generation, l.host.tables;
      var closed := g in t.generations && t.generations[g].state.Closed?;
      InvocationKeepsFenced(l.host, closed, g, carries, nowMs, budget);
      InvocationLeavesOpenIff(l.host, closed, g, carries, nowMs, budget);
  }

  /**
   Over any run every output file has its started monitor, exactly when no process crashed between
   making an output and starting its monitor, and no monitor failed to start.
   */
  lemma {:induction false} EveryOutputHasItsMonitorIff(l: Life, moves: seq<Move>)
    requires AllowedAll(l, moves) && Fenced(l.host)
    ensures AllStarted(MovedAll(l, moves).host) <==> AllStarted(l.host) && !EverLeavesOpen(l, moves)
    decreases moves
  {
    if moves != [] {
      MoveKeepsFenced(l, moves[0]);
      EveryOutputHasItsMonitorIff(Moved(l, moves[0]), moves[1..]);
    }
  }

  /** Another monitor was started for the generation, under a name that looks the same. */
  ghost predicate LookalikeStarted(h: Host, g: nat, id: string) {
    exists s :: s in h.spawned && s.generation == g && s.launchId != id && Sanitised(s.launchId) == Sanitised(id)
  }

  /**
   After any run in which no output was left without its monitor: an item reported as relaunched
   was not started exactly when a monitor whose name looks the same was.
   */
  lemma WrongReportIffLookalike(l: Life, moves: seq<Move>, closed: bool, g: nat, c: Carry, nowMs: int)
    requires AllowedAll(l, moves) && Fenced(l.host) && AllStarted(l.host) && !EverLeavesOpen(l, moves)
    requires PlanFor(MovedAll(l, moves).host, closed, g, c.id, c.item, c.outside, nowMs).invocation.AlreadyRelaunched?
    ensures var h := MovedAll(l, moves).host; Spawn(c.id, g) !in h.spawned <==> LookalikeStarted(h, g, c.id)
  {
    var h := MovedAll(l, moves).host;
    StartedAtMostOnce(l, moves);
    EveryOutputHasItsMonitorIff(l, moves);
    assert IsStarted(h, FenceName(c.id, g));
    var s :| s in h.spawned && FenceName(s.launchId, s.generation) == FenceName(c.id, g);
    FencesCollideIff(s.launchId, s.generation, c.id, g);
    if LookalikeStarted(h, g, c.id) && Spawn(c.id, g) in h.spawned {
      var o :| o in h.spawned && o.generation == g && o.launchId != c.id && Sanitised(o.launchId) == Sanitised(c.id);
      FencesCollideIff(o.launchId, g, c.id, g);
    }
  }

  /** A process that crashes right behind the output: the next one reports the monitor, and it was not started. */
  lemma CrashBehindTheOutput(a: string, b: string)
    requires a != b
    ensures var crash := CarryOver(0, [MonitorCarry(a)], 0, 1);
      && AllowedAll(START, TwoMonitors(a, b))
      && var l := MovedAll(START, TwoMonitors(a, b));
      && Allowed(l, crash) && MoveLeavesOpen(l, crash)
      && var later := Moved(l, crash);
      && later.host.spawned == []
      && ReportedNow(later.host, 1, [MonitorCarry(a)], 0, 9) == [AlreadyRelaunched(Fence(FenceName(a, 1)))]
  {
    TwoMonitorsAreHeld(a, b);
    var l, carries := MovedAll(START, TwoMonitors(a, b)), [MonitorCarry(a)];
    var effects := StartEffects(a);
    MonitorIsStarted(l.host, a);
    SomeEffects(l.host, effects[0], effects[1], effects[2]);
    assert carries[1..] == [];
    assert effects[..1] == [effects[0]];
    var crash := CarryOver(0, carries, 0, 1);
    assert Allowed(l, crash);
    var later := Moved(l, crash);
    assert later.host == After(l.host, effects[0]);
    var plan := PlanFor(later.host, false, 1, a, Snapshots.Carried(QUALIFIED), AllWorks(a), 0);
    assert plan == Plan(AlreadyRelaunched(Fence(FenceName(a, 1))), []);
    assert Reported(later.host, false, 1, [], 0, 9) == [];
  }
}
