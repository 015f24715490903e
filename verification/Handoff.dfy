/**
 Carrying a snapshot's items over into the rebuilt session. A monitor is started anew behind
 an output file that can be created only once, so that retries, also after a crash between
 any two effects, start it at most once per launch and generation.
 */
module Handoff {
  import opened Basics
  import opened PlainText
  import opened ContinuityStore
  import opened Snapshots

  datatype Spawn = Spawn(launchId: string, generation: nat)

  /** What the process sees of its surroundings while it carries one item over. */
  datatype Outside = Outside(adoptedIsFile: bool, resolves: bool, shellFound: bool, createWorks: bool, spawnWorks: bool,
                             output: Option<Identity>, process: Option<Process>, why: string)

  datatype Invocation =
    | Adopted | Manifest | Rearmed | RelaunchedNow(path: Path) | AlreadyRelaunched(path: Path)
    | RelaunchCarried(path: Path) | NotCarried(why: string)

  datatype Effect =
    | MakeFence(name: string)
    | StartMonitor(spawn: Spawn)
    | NoteRelaunch(id: string, relaunch: Relaunch, nowMs: int)
    | NoteFailure(id: string, why: string, nowMs: int)

  /** The record, the output files of relaunched monitors, and the monitors ever started. */
  datatype Host = Host(tables: Tables, fences: set<string>, spawned: seq<Spawn>)

  // ----- The output file of a relaunch -----

  predicate IsPlain(c: char) {
    'A' <= c <= 'Z' || 'a' <= c <= 'z' || '0' <= c <= '9' || c == '.' || c == '_' || c == '-'
  }

  /** Exactly letters, digits, dots, underscores and dashes stay as they are. */
  lemma PlainAre(c: char)
    ensures IsPlain(c) <==>
            c in "ABCDEFGHIJKLMNOPQRSTUVWXYZ" || c in "abcdefghijklmnopqrstuvwxyz" || c in "0123456789._-"
  {
  }

  function Sanitised(s: string): (r: string)
    ensures |r| == |s|
  {
    seq(|s|, i requires 0 <= i < |s| => if IsPlain(s[i]) then s[i] else '_')
  }

  /** The relaunch key made into a file name. */
  function FenceName(launchId: string, generation: nat): string {
    Sanitised(launchId + "#" + Decimal(generation))
  }

  lemma FenceNameIs(launchId: string, generation: nat)
    ensures FenceName(launchId, generation) == Sanitised(launchId) + "_" + Decimal(generation)
  {
    var digits := Decimal(generation);
    forall k | 0 <= k < |digits| ensures IsPlain(digits[k]) {
      assert IsDigit(digits[k]);
    }
  }

  lemma NoUnderscoreAfter(a: string, m: string)
    requires AllDigits(m)
    ensures forall k :: |a| < k < |a + "_" + m| ==> (a + "_" + m)[k] != '_'
  {
    var s := a + "_" + m;
    forall k | |a| < k < |s| ensures s[k] != '_' {
      assert s[k] == m[k - |a| - 1] && IsDigit(m[k - |a| - 1]);
    }
  }

  lemma SameTail(a: string, m: string, b: string, n: string)
    requires a + "_" + m == b + "_" + n && AllDigits(m) && AllDigits(n)
    ensures a == b && m == n
  {
    var s := a + "_" + m;
    NoUnderscoreAfter(a, m);
    NoUnderscoreAfter(b, n);
    assert s[|a|] == '_' && s[|b|] == '_';
    assert s[..|a|] == a && s[..|b|] == b && s[|a| + 1..] == m && s[|b| + 1..] == n;
  }

  /** Two relaunches share an output file exactly when they are of one generation and their names look the same. */
  lemma FencesCollideIff(id: string, g: nat, otherId: string, h: nat)
    ensures FenceName(id, g) == FenceName(otherId, h) <==> g == h && Sanitised(id) == Sanitised(otherId)
  {
    FenceNameIs(id, g);
    FenceNameIs(otherId, h);
    if FenceName(id, g) == FenceName(otherId, h) {
      SameTail(Sanitised(id), Decimal(g), Sanitised(otherId), Decimal(h));
      DecimalRoundTrip(g);
      DecimalRoundTrip(h);
    }
  }

  // ----- One item -----

  function After(h: Host, e: Effect): Host {
    match e
    case MakeFence(name) => h.(fences := h.fences + {name})
    case StartMonitor(spawn) => h.(spawned := h.spawned + [spawn])
    case NoteRelaunch(id, relaunch, nowMs) => h.(tables := Relaunched(h.tables, id, relaunch, nowMs))
    case NoteFailure(id, why, nowMs) => h.(tables := Ended(h.tables, id, Ending(Failed, why, nowMs)))
  }

  function AfterAll(h: Host, effects: seq<Effect>): Host
    decreases effects
  {
    if effects == [] then h else AfterAll(After(h, effects[0]), effects[1..])
  }

  datatype Plan = Plan(invocation: Invocation, effects: seq<Effect>)

  /** A failure is recorded unless the generation was closed already. */
  function NotCarriedPlan(id: string, closed: bool, why: string, nowMs: int): Plan {
    Plan(NotCarried(why), if closed then [] else [NoteFailure(id, why, nowMs)])
  }

  /** The output is created first, then the monitor is started, then the relaunch is recorded. */
  function StartPlan(h: Host, g: nat, id: string, o: Outside, nowMs: int): Plan {
    var name := FenceName(id, g);
    var fence, start := MakeFence(name), StartMonitor(Spawn(id, g));
    if !o.spawnWorks then Plan(NotCarried(o.why), [fence, NoteFailure(id, o.why, nowMs)])
    else if o.output.None? then Plan(RelaunchedNow(Fence(name)), [fence, start])
    else if id in h.tables.items && !IsIdentity(o.output.value)
    then Plan(NotCarried(o.why), [fence, start, NoteFailure(id, o.why, nowMs)])
    else
      var note := NoteRelaunch(id, Relaunch(Fence(name), o.output.value, o.process), nowMs);
      Plan(RelaunchedNow(Fence(name)), [fence, start, note])
  }

  function RelaunchPlan(h: Host, closed: bool, g: nat, id: string, item: CarriedItem, o: Outside, nowMs: int): Plan {
    var name := FenceName(id, g);
    if item.relaunch.Some? && item.relaunch.value.outputPath != Fence(name)
    then Plan(RelaunchCarried(item.relaunch.value.outputPath), [])
    else if closed then
      if name in h.fences then Plan(AlreadyRelaunched(Fence(name)), []) else Plan(NotCarried(o.why), [])
    else if !o.resolves || !o.shellFound then NotCarriedPlan(id, closed, o.why, nowMs)
    else if name in h.fences then Plan(AlreadyRelaunched(Fence(name)), [])
    else if !o.createWorks then NotCarriedPlan(id, closed, o.why, nowMs)
    else StartPlan(h, g, id, o, nowMs)
  }

  /** How an item is carried over, and the effects of that in their order. */
  function PlanFor(h: Host, closed: bool, g: nat, id: string, item: CarriedItem, o: Outside, nowMs: int): Plan {
    match item.mechanism
    case ParentOutputRead(_) => if o.adoptedIsFile then Plan(Adopted, []) else NotCarriedPlan(id, closed, o.why, nowMs)
    case SendMessage(_) => Plan(Manifest, [])
    case WorkflowResume(_, _) => Plan(Manifest, [])
    case RearmAt(_) => Plan(Rearmed, [])
    case MonitorRelaunch(_, _) => RelaunchPlan(h, closed, g, id, item, o, nowMs)
  }

  lemma FirstEffect(h: Host, e: Effect, rest: seq<Effect>)
    ensures AfterAll(h, [e] + rest) == AfterAll(After(h, e), rest)
  {
    assert ([e] + rest)[1..] == rest;
  }

  lemma SomeEffects(h: Host, a: Effect, b: Effect, c: Effect)
    ensures AfterAll(h, []) == h && AfterAll(h, [a]) == After(h, a) && AfterAll(h, [a, b]) == After(After(h, a), b)
    ensures AfterAll(h, [a, b, c]) == After(After(After(h, a), b), c)
    ensures [a, b, c][..1] == [a, b][..1] == [a] && [a, b, c][..2] == [a, b]
            && [a][..0] == [a, b][..0] == [a, b, c][..0] == []
  {
    assert [a] + [] == [a] && [a] + [b] == [a, b] && [a] + [b, c] == [a, b, c];
    assert [b] + [] == [b] && [b] + [c] == [b, c] && [c] + [] == [c];
    FirstEffect(h, a, []);
    FirstEffect(h, a, [b]);
    FirstEffect(h, a, [b, c]);
    FirstEffect(After(h, a), b, []);
    FirstEffect(After(h, a), b, [c]);
    FirstEffect(After(After(h, a), b), c, []);
  }

  /** The first effects of a plan, one after the other. */
  lemma EffectsDo(h: Host, effects: seq<Effect>, n: nat)
    requires 0 < n <= |effects| <= 3
    ensures AfterAll(h, effects[..n])
            == var one := After(h, effects[0]);
               if n == 1 then one
               else if n == 2 then After(one, effects[1])
               else After(After(one, effects[1]), effects[2])
  {
    var first := effects[..n];
    assert first == [effects[0]] + effects[1..n];
    FirstEffect(h, effects[0], effects[1..n]);
    if n > 1 {
      assert effects[1..n] == [effects[1]] + effects[2..n];
      FirstEffect(After(h, effects[0]), effects[1], effects[2..n]);
    }
    if n > 2 {
      assert effects[2..n] == [effects[2]] + [];
      FirstEffect(After(After(h, effects[0]), effects[1]), effects[2], []);
    }
  }

  // ----- A whole invocation, which may crash after any number of effects -----

  datatype Carry = Carry(id: string, item: CarriedItem, outside: Outside)

  function Invoked(h: Host, closed: bool, g: nat, carries: seq<Carry>, nowMs: int, budget: nat): Host
    decreases carries
  {
    if carries == [] then
      if budget == 0 then h else h.(tables := ClosedUp(h.tables, g, nowMs))
    else
      var effects := PlanFor(h, closed, g, carries[0].id, carries[0].item, carries[0].outside, nowMs).effects;
      if |effects| > budget then AfterAll(h, effects[..budget])
      else Invoked(AfterAll(h, effects), closed, g, carries[1..], nowMs, budget - |effects|)
  }

  /** What an invocation reports for the items it got through. */
  function Reported(h: Host, closed: bool, g: nat, carries: seq<Carry>, nowMs: int, budget: nat): seq<Invocation>
    decreases carries
  {
    if carries == [] then []
    else
      var plan := PlanFor(h, closed, g, carries[0].id, carries[0].item, carries[0].outside, nowMs);
      if |plan.effects| > budget then []
      else
        [plan.invocation]
        + Reported(AfterAll(h, plan.effects), closed, g, carries[1..], nowMs, budget - |plan.effects|)
  }

  function InvokedNow(h: Host, g: nat, carries: seq<Carry>, nowMs: int, budget: nat): Host {
    Invoked(h, g in h.tables.generations && h.tables.generations[g].state.Closed?, g, carries, nowMs, budget)
  }

  function ReportedNow(h: Host, g: nat, carries: seq<Carry>, nowMs: int, budget: nat): seq<Invocation> {
    Reported(h, g in h.tables.generations && h.tables.generations[g].state.Closed?, g, carries, nowMs, budget)
  }

  class Machine {
    const store: Store
    var fences: set<string>
    var spawned: seq<Spawn>
    var budget: nat    // effects left before the process crashes

    constructor (store: Store)
      ensures this.store == store && fences == {} && spawned == []
    {
      this.store, fences, spawned, budget := store, {}, [], 0;
    }

    ghost function Now(): Host
      reads this, store
    {
      Host(store.Now(), fences, spawned)
    }

    /** One effect, unless the process crashes before it. */
    method Do(e: Effect) returns (done: bool)
      requires store.Valid()
      modifies this, store`items, store`results
      ensures store.Valid() && done == (old(budget) > 0)
      ensures done ==> Now() == After(old(Now()), e) && budget == old(budget) - 1
      ensures !done ==> Now() == old(Now()) && budget == 0
    {
      if budget == 0 {
        return false;
      }
      budget, done := budget - 1, true;
      match e
      case MakeFence(name) => fences := fences + {name};
      case StartMonitor(spawn) => spawned := spawned + [spawn];
      case NoteRelaunch(id, relaunch, nowMs) =>
        var a := store.SetRelaunched(id, relaunch, nowMs);
      case NoteFailure(id, why, nowMs) =>
        var applied := store.RecordTerminal(id, Ending(Failed, why, nowMs));
    }

    /** The plan was carried out, as far as the process got. */
    ghost predicate CarriedOut(before: Host, had: nat, plan: Plan, i: Option<Invocation>)
      reads this, store
    {
      if i.Some? then
        && plan.invocation == i.value && |plan.effects| <= had && budget == had - |plan.effects|
        && Now() == AfterAll(before, plan.effects)
      else
        |plan.effects| > had && budget == 0 && Now() == AfterAll(before, plan.effects[..had])
    }

    /** Creates the output, starts the monitor and records it; None when the process crashed. */
    method Start(g: nat, id: string, o: Outside, nowMs: int) returns (i: Option<Invocation>)
      requires store.Valid()
      modifies this, store`items, store`results
      ensures store.Valid() && CarriedOut(old(Now()), old(budget), StartPlan(old(Now()), g, id, o, nowMs), i)
    {
      var name := FenceName(id, g);
      var fence, start := MakeFence(name), StartMonitor(Spawn(id, g));
      var failure := NoteFailure(id, o.why, nowMs);
      var note := if o.output.None? then failure
                  else NoteRelaunch(id, Relaunch(Fence(name), o.output.value, o.process), nowMs);
      SomeEffects(Now(), fence, start, failure);
      SomeEffects(Now(), fence, start, note);
      SomeEffects(Now(), fence, failure, failure);
      var done := Do(fence);
      if !done {
        return None;
      }
      if !o.spawnWorks {
        done := Do(failure);
        return if done then Some(NotCarried(o.why)) else None;
      }
      done := Do(start);
      if !done {
        return None;
      }
      if o.output.None? {
        return Some(RelaunchedNow(Fence(name)));
      }
      if id in store.items && !IsIdentity(o.output.value) {
        done := Do(failure);
        return if done then Some(NotCarried(o.why)) else None;
      }
      done := Do(note);
      return if done then Some(RelaunchedNow(Fence(name))) else None;
    }

    /** Records a failed carryover, unless the generation was closed already. */
    method Fail(id: string, closed: bool, why: string, nowMs: int) returns (i: Option<Invocation>)
      requires store.Valid()
      modifies this, store`items, store`results
      ensures store.Valid() && CarriedOut(old(Now()), old(budget), NotCarriedPlan(id, closed, why, nowMs), i)
    {
      var failure := NoteFailure(id, why, nowMs);
      SomeEffects(Now(), failure, failure, failure);
      if !closed {
        var done := Do(failure);
        return if done then Some(NotCarried(why)) else None;
      }
      i := Some(NotCarried(why));
    }

    method CarryOver(g: nat, closed: bool, c: Carry, nowMs: int) returns (i: Option<Invocation>)
      requires store.Valid()
      modifies this, store`items, store`results
      ensures store.Valid()
      ensures CarriedOut(old(Now()), old(budget), PlanFor(old(Now()), closed, g, c.id, c.item, c.outside, nowMs), i)
    {
      match c.item.mechanism
      case ParentOutputRead(_) =>
        if c.outside.adoptedIsFile {
          return Some(Adopted);
        }
        i := Fail(c.id, closed, c.outside.why, nowMs);
      case SendMessage(_) => i := Some(Manifest);
      case WorkflowResume(_, _) => i := Some(Manifest);
      case RearmAt(_) => i := Some(Rearmed);
      case MonitorRelaunch(_, _) =>
        var name := FenceName(c.id, g);
        var relaunch := c.item.relaunch;
        if relaunch.Some? && relaunch.value.outputPath != Fence(name) {
          return Some(RelaunchCarried(relaunch.value.outputPath));
        }
        if closed {
          return Some(if name in fences then AlreadyRelaunched(Fence(name)) else NotCarried(c.outside.why));
        }
        if !c.outside.resolves || !c.outside.shellFound {
          i := Fail(c.id, closed, c.outside.why, nowMs);
        } else if name in fences {
          i := Some(AlreadyRelaunched(Fence(name)));
        } else if !c.outside.createWorks {
          i := Fail(c.id, closed, c.outside.why, nowMs);
        } else {
          i := Start(g, c.id, c.outside, nowMs);
        }
    }

    /** Carries the items over in their order; not done when the process crashed. */
    method CarryAll(g: nat, closed: bool, carries: seq<Carry>, nowMs: int)
      returns (results: seq<Invocation>, done: bool)
      requires store.Valid()
      modifies this, store`items, store`results
      ensures store.Valid() && (if done then |results| == |carries| else budget == 0)
      ensures Invoked(old(Now()), closed, g, carries, nowMs, old(budget))
              == if done then Invoked(Now(), closed, g, [], nowMs, budget) else Now()
      ensures results == Reported(old(Now()), closed, g, carries, nowMs, old(budget))
    {
      results := [];
      var todo := carries;
      while todo != []
        invariant store.Valid() && |results| + |todo| == |carries|
        invariant Invoked(Now(), closed, g, todo, nowMs, budget)
                  == Invoked(old(Now()), closed, g, carries, nowMs, old(budget))
        invariant results + Reported(Now(), closed, g, todo, nowMs, budget)
                  == Reported(old(Now()), closed, g, carries, nowMs, old(budget))
      {
        var i := CarryOver(g, closed, todo[0], nowMs);
        if i.None? {
          return results, false;
        }
        ConcatAssociative(results, [i.value], Reported(Now(), closed, g, todo[1..], nowMs, budget));
        results, todo := results + [i.value], todo[1..];
      }
      done := true;
    }

    /** Carries every item of the snapshot over and closes its generation, or crashes on the way. */
    method InvokeCarryover(g: nat, carries: seq<Carry>, nowMs: int)
      returns (results: seq<Invocation>, closure: Option<Closure>)
      requires store.Valid()
      modifies this, store
      ensures store.Valid() && Now() == InvokedNow(old(Now()), g, carries, nowMs, old(budget))
      ensures results == ReportedNow(old(Now()), g, carries, nowMs, old(budget))
      ensures closure.Some? ==> |results| == |carries|
      ensures closure.None? ==> budget == 0 && store.generations == old(store.generations)
      ensures closure.Some? ==>
                if closure.value.refusal.None? then g in store.generations && store.generations[g].state.Closed?
                else store.generations == old(store.generations)
    {
      var closed := g in store.generations && store.generations[g].state.Closed?;
      var done;
      results, done := CarryAll(g, closed, carries, nowMs);
      closure := None;
      if done && budget > 0 {
        budget := budget - 1;
        var c := CloseContinuitySnapshot(store, g, nowMs);
        closure := Some(c);
      }
    }
  }

  // ----- At most once -----

  /** Every monitor ever started stands behind its own output file, no two behind the same. */
  ghost predicate Fenced(h: Host) {
    && (forall s :: s in h.spawned ==> FenceName(s.launchId, s.generation) in h.fences)
    && forall i, j :: 0 <= i < j < |h.spawned| ==>
         FenceName(h.spawned[i].launchId, h.spawned[i].generation)
         != FenceName(h.spawned[j].launchId, h.spawned[j].generation)
  }

  /** What carrying one item over may do: start its own monitor, behind an output that was not there. */
  ghost predicate Starts(h: Host, later: Host, spawn: Spawn) {
    && h.fences <= later.fences
    && (later.spawned == h.spawned
        || (later.spawned == h.spawned + [spawn]
            && FenceName(spawn.launchId, spawn.generation) in later.fences - h.fences))
  }

  lemma StartKeepsFenced(h: Host, later: Host, spawn: Spawn)
    requires Fenced(h) && Starts(h, later, spawn)
    ensures Fenced(later)
  {
  }

  /** Whatever was done of a plan when the process crashed, it started its own monitor at most. */
  lemma PlanStarts(h: Host, closed: bool, g: nat, c: Carry, nowMs: int, n: nat)
    requires n <= |PlanFor(h, closed, g, c.id, c.item, c.outside, nowMs).effects|
    ensures Starts(h, AfterAll(h, PlanFor(h, closed, g, c.id, c.item, c.outside, nowMs).effects[..n]), Spawn(c.id, g))
  {
    var effects := PlanFor(h, closed, g, c.id, c.item, c.outside, nowMs).effects;
    if |effects| >= 2 {
      var third := if |effects| == 3 then effects[2] else effects[1];
      SomeEffects(h, effects[0], effects[1], third);
      assert effects == if |effects| == 3 then [effects[0], effects[1], third] else [effects[0], effects[1]];
      assert n == |effects| ==> effects[..n] == effects;
      assert n < |effects| ==> effects[..n] == [effects[0], effects[1], third][..n];
    } else if |effects| == 1 {
      SomeEffects(h, effects[0], effects[0], effects[0]);
      assert effects == [effects[0]];
      assert n == 1 ==> effects[..n] == effects;
    }
  }

  /** The monitor was carried with a relaunch of another generation, or its output exists already. */
  predicate IsSettled(h: Host, g: nat, c: Carry) {
    || FenceName(c.id, g) in h.fences
    || (c.item.relaunch.Some? && c.item.relaunch.value.outputPath != Fence(FenceName(c.id, g)))
  }

  lemma SettledPlanStartsNothing(h: Host, closed: bool, g: nat, c: Carry, nowMs: int)
    requires IsSettled(h, g, c)
    ensures PlanFor(h, closed, g, c.id, c.item, c.outside, nowMs).effects
            in [[], [NoteFailure(c.id, c.outside.why, nowMs)]]
  {
  }

  /** A settled monitor is not started, however far the process gets. */
  lemma NotStartedAgain(h: Host, closed: bool, g: nat, c: Carry, nowMs: int, n: nat)
    requires n <= |PlanFor(h, closed, g, c.id, c.item, c.outside, nowMs).effects| && IsSettled(h, g, c)
    ensures AfterAll(h, PlanFor(h, closed, g, c.id, c.item, c.outside, nowMs).effects[..n]).spawned == h.spawned
  {
    var effects := PlanFor(h, closed, g, c.id, c.item, c.outside, nowMs).effects;
    var failure := NoteFailure(c.id, c.outside.why, nowMs);
    SettledPlanStartsNothing(h, closed, g, c, nowMs);
    SomeEffects(h, failure, failure, failure);
    assert effects == [failure] && n == 1 ==> effects[..n] == effects;
    assert n == 0 ==> effects[..n] == [];
  }

  lemma {:induction false} InvocationKeepsFenced(h: Host, closed: bool, g: nat, carries: seq<Carry>, nowMs: int,
                                                 budget: nat)
    requires Fenced(h)
    ensures Fenced(Invoked(h, closed, g, carries, nowMs, budget))
    decreases carries
  {
    if carries != [] {
      var c := carries[0];
      var effects := PlanFor(h, closed, g, c.id, c.item, c.outside, nowMs).effects;
      var n := Min(|effects|, budget);
      PlanStarts(h, closed, g, c, nowMs, n);
      StartKeepsFenced(h, AfterAll(h, effects[..n]), Spawn(c.id, g));
      if |effects| <= budget {
        assert effects[..n] == effects;
        InvocationKeepsFenced(AfterAll(h, effects), closed, g, carries[1..], nowMs, budget - |effects|);
      }
    }
  }

  /** Fenced means that no launch is started twice for one generation. */
  lemma FencedStartsOnce(h: Host)
    requires Fenced(h)
    ensures NoDup(h.spawned)
  {
  }

  // ----- What an invocation reports and ends -----

  /** A monitor whose recorded relaunch is not behind this generation's output. */
  predicate IsElsewhere(g: nat, c: Carry) {
    c.item.relaunch.Some? && c.item.relaunch.value.outputPath != Fence(FenceName(c.id, g))
  }

  /** All a monitor needs to be started anew, but for its output. */
  predicate CanBeStarted(c: Carry) {
    c.outside.resolves && c.outside.shellFound
  }

  /** The started monitor's output is one the record takes, or nothing is to be recorded. */
  predicate CanBeNoted(h: Host, c: Carry) {
    c.outside.output.Some? && c.id in h.tables.items ==> IsIdentity(c.outside.output.value)
  }

  /** What a monitor is reported as, told by its recorded relaunch, its output file and what works. */
  ghost predicate MonitorFits(h: Host, closed: bool, g: nat, c: Carry, i: Invocation) {
    var name := FenceName(c.id, g);
    && !i.Adopted? && !i.Manifest? && !i.Rearmed?
    && (i.RelaunchCarried? <==> IsElsewhere(g, c))
    && (i.RelaunchCarried? ==> i.path == c.item.relaunch.value.outputPath)
    && (i.AlreadyRelaunched? <==> !IsElsewhere(g, c) && name in h.fences && (closed || CanBeStarted(c)))
    && (i.AlreadyRelaunched? || i.RelaunchedNow? ==> i.path == Fence(name))
    && (i.RelaunchedNow?
        <==> && !IsElsewhere(g, c) && !closed && CanBeStarted(c) && name !in h.fences
             && c.outside.createWorks && c.outside.spawnWorks && CanBeNoted(h, c))
    && (i.NotCarried? ==> i.why == c.outside.why)
  }

  /** What an item is reported as, told by its verified identity and what the process sees. */
  ghost predicate Fits(h: Host, closed: bool, g: nat, c: Carry, i: Invocation) {
    match c.item.identity
    case PosixOutput(_, _, _) => i == if c.outside.adoptedIsFile then Adopted else NotCarried(c.outside.why)
    case Win32Output(_, _, _) => i == if c.outside.adoptedIsFile then Adopted else NotCarried(c.outside.why)
    case AgentTranscript(_, _) => i == Manifest
    case WorkflowRun(_, _, _) => i == Manifest
    case ScheduledTime(_, _) => i == Rearmed
    case MonitorLaunch(_, _) => MonitorFits(h, closed, g, c, i)
  }

  lemma PlanFits(h: Host, closed: bool, g: nat, c: Carry, nowMs: int)
    requires c.item.mechanism == MechanismOf(c.item.identity)
    ensures Fits(h, closed, g, c, PlanFor(h, closed, g, c.id, c.item, c.outside, nowMs).invocation)
  {
  }

  /**
   Every item an invocation gets through is reported as its identity and its surroundings say, the
   monitors by what the invocation of the items before left. Its mechanism is that of its identity.
   */
  lemma {:induction false} ReportsFit(h: Host, closed: bool, g: nat, carries: seq<Carry>, nowMs: int, budget: nat,
                                      k: nat)
    requires k < |Reported(h, closed, g, carries, nowMs, budget)| && k < |carries|
    requires forall c <- carries :: c.item.mechanism == MechanismOf(c.item.identity)
    ensures Fits(Invoked(h, closed, g, carries[..k], nowMs, budget), closed, g, carries[k],
                 Reported(h, closed, g, carries, nowMs, budget)[k])
    decreases k
  {
    var c := carries[0];
    FirstIsIn(carries);
    var effects := PlanFor(h, closed, g, c.id, c.item, c.outside, nowMs).effects;
    if k == 0 {
      PlanFits(h, closed, g, c, nowMs);
    } else {
      assert carries[..k][0] == c && carries[..k][1..] == carries[1..][..k - 1];
      ReportsFit(AfterAll(h, effects), closed, g, carries[1..], nowMs, budget - |effects|, k - 1);
    }
  }

  /** Why this item was not carried, by each report that says so. */
  function Refusals(carries: seq<Carry>, reports: seq<Invocation>, id: string): set<string>
    decreases carries
  {
    if carries == [] || reports == [] then {}
    else
      (if carries[0].id == id && reports[0].NotCarried? then {reports[0].why} else {})
      + Refusals(carries[1..], reports[1..], id)
  }

  /** What an invocation may do to an item: end it as failed, or record its relaunch. */
  ghost predicate EndsIff(t: Tables, later: Tables, id: string, refusals: set<string>, closed: bool, nowMs: int) {
    && (id in later.items <==> id in t.items)
    && (id in t.items && t.items[id].state.Terminal? ==> later.items[id] == t.items[id])
    && (IsUnfinished(t, id) ==>
          && (!IsUnfinished(later, id) <==> refusals != {} && !closed)
          && (!IsUnfinished(later, id) ==>
                exists why :: why in refusals && later.items[id].ending == Some(Ending(Failed, why, nowMs))))
  }

  /** Only the last effect of a plan may touch the record: the failure, or the relaunch. */
  lemma PlanTables(h: Host, closed: bool, g: nat, c: Carry, nowMs: int, n: nat)
    requires n <= |PlanFor(h, closed, g, c.id, c.item, c.outside, nowMs).effects|
    ensures var effects := PlanFor(h, closed, g, c.id, c.item, c.outside, nowMs).effects;
            AfterAll(h, effects[..n]).tables
            == if 0 < n == |effects| then After(h, effects[n - 1]).tables else h.tables
  {
    var effects := PlanFor(h, closed, g, c.id, c.item, c.outside, nowMs).effects;
    if n == 0 {
      assert effects[..0] == [];
    } else {
      EffectsDo(h, effects, n);
    }
  }

  lemma NotingEnds(t: Tables, id: string, e: Effect, closed: bool, nowMs: int, of: string)
    requires e.NoteFailure? ==> e.nowMs == nowMs && e.id == of && !closed
    ensures EndsIff(t, After(Host(t, {}, []), e).tables, id, if e.NoteFailure? && of == id then {e.why} else {},
                    closed, nowMs)
  {
    if e.NoteFailure? {
      assert e.why in {e.why};
    }
  }

  lemma PlanEnds(h: Host, closed: bool, g: nat, c: Carry, nowMs: int, n: nat, id: string)
    requires n <= |PlanFor(h, closed, g, c.id, c.item, c.outside, nowMs).effects|
    ensures var plan := PlanFor(h, closed, g, c.id, c.item, c.outside, nowMs);
            EndsIff(h.tables, AfterAll(h, plan.effects[..n]).tables, id,
                    if n == |plan.effects| && plan.invocation.NotCarried? && c.id == id
                    then {plan.invocation.why} else {},
                    closed, nowMs)
  {
    var plan := PlanFor(h, closed, g, c.id, c.item, c.outside, nowMs);
    PlanTables(h, closed, g, c, nowMs, n);
    if 0 < n == |plan.effects| {
      var last := plan.effects[n - 1];
      assert last.NoteFailure? <==> plan.invocation.NotCarried?;
      assert last.NoteFailure? ==> last == NoteFailure(c.id, plan.invocation.why, nowMs) && !closed;
      NotingEnds(h.tables, id, last, closed, nowMs, c.id);
    } else if n == |plan.effects| {
      assert plan.invocation.NotCarried? ==> closed;
    }
  }

  /**
   However far an invocation gets, an unfinished item is ended exactly when it was reported as not
   carried and the generation was open, and it is ended as failed; no other ending is touched.
   */
  lemma {:induction false} EndsExactlyTheRefused(h: Host, closed: bool, g: nat, carries: seq<Carry>, nowMs: int,
                                                 budget: nat, id: string)
    ensures var reports := Reported(h, closed, g, carries, nowMs, budget);
            EndsIff(h.tables, Invoked(h, closed, g, carries, nowMs, budget).tables, id,
                    Refusals(carries, reports, id), closed, nowMs)
    decreases carries
  {
    if carries != [] {
      var c := carries[0];
      var plan := PlanFor(h, closed, g, c.id, c.item, c.outside, nowMs);
      var n := Min(|plan.effects|, budget);
      PlanEnds(h, closed, g, c, nowMs, n, id);
      if |plan.effects| <= budget {
        assert plan.effects[..n] == plan.effects;
        var next := AfterAll(h, plan.effects);
        EndsExactlyTheRefused(next, closed, g, carries[1..], nowMs, budget - |plan.effects|, id);
        var later := Reported(next, closed, g, carries[1..], nowMs, budget - |plan.effects|);
        assert ([plan.invocation] + later)[1..] == later;
      }
    }
  }
}
