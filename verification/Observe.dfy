/** Observing a rollout's background work, and observing it again from the start. */
module Observe {
  import opened Basics
  import opened ContinuityStore

  datatype WorkEvent =
    | WorkLaunched(id: string, work: Work, learned: Option<Continuation>)
    | WorkProgressed(id: string, learned: Option<Continuation>)
    | WorkEnded(id: string, outcome: Outcome, evidence: string)

  function Applied(t: Tables, e: WorkEvent, nowMs: int): Tables {
    match e
    case WorkLaunched(id, work, learned) => Launched(t, id, work, learned, nowMs)
    case WorkProgressed(id, learned) => Progressed(t, id, learned, nowMs)
    case WorkEnded(id, outcome, evidence) => Ended(t, id, Ending(outcome, evidence, nowMs))
  }

  method ApplyAsyncWorkEvent(store: Store, e: WorkEvent, nowMs: int)
    requires store.Valid()
    modifies store`items, store`results
    ensures store.Valid() && store.Now() == Applied(old(store.Now()), e, nowMs)
  {
    match e
    case WorkLaunched(id, work, learned) =>
      var item, inserted := store.RecordLaunch(id, work, learned, nowMs);
    case WorkProgressed(id, learned) =>
      store.RecordProgress(id, learned, nowMs);
    case WorkEnded(id, outcome, evidence) =>
      var applied := store.RecordTerminal(id, Ending(outcome, evidence, nowMs));
  }

  /** Applies a stream, each event at its own time. */
  function AppliedAll(t: Tables, stream: seq<WorkEvent>, times: seq<int>): Tables
    requires |times| == |stream|
    decreases stream
  {
    if stream == [] then t else AppliedAll(Applied(t, stream[0], times[0]), stream[1..], times[1..])
  }

  /** The same record apart from the times of its last updates. */
  ghost predicate AlikeButUpdateTimes(t: Tables, u: Tables) {
    && u.results == t.results && u.generations == t.generations && u.items.Keys == t.items.Keys
    && forall id :: id in t.items ==> u.items[id].(updatedAtMs := t.items[id].updatedAtMs) == t.items[id]
  }

  /** Every progress and every end is about work already recorded, or launched earlier in the stream. */
  ghost predicate LaunchedFirst(known: set<string>, stream: seq<WorkEvent>)
    decreases stream
  {
    stream != [] ==>
      && (stream[0].WorkLaunched? || stream[0].id in known)
      && LaunchedFirst(known + {stream[0].id}, stream[1..])
  }

  /** What the event tells is already recorded. */
  predicate Absorbed(t: Tables, e: WorkEvent) {
    && e.id in t.items
    && match e
       case WorkLaunched(_, _, _) => true
       case WorkProgressed(id, learned) =>
         t.items[id].state.Terminal? || Merged(t.items[id].continuation, learned) == t.items[id].continuation
       case WorkEnded(id, _, _) => t.items[id].state.Terminal?
  }

  /** Facts once merged stay, whatever is merged after: the first writer wins. */
  lemma FirstWriterWins(c: Option<Continuation>, first: Option<Continuation>, later: Option<Continuation>)
    requires c.Some? ==> IsContinuation(c.value)
    ensures Merged(Merged(c, first), first) == Merged(c, first)
    ensures Merged(Merged(Merged(c, first), later), first) == Merged(Merged(c, first), later)
    ensures c.Some? && later.Some? ==>
              var m := Merged(c, later).value;
              && (c.value.outputFile.Some? ==> m.outputFile == c.value.outputFile)
              && (c.value.runId.Some? ==> m.runId == c.value.runId)
              && (c.value.scriptPath.Some? ==> m.scriptPath == c.value.scriptPath)
              && (c.value.transcriptDir.Some? ==> m.transcriptDir == c.value.transcriptDir)
              && (c.value.taskProcess.Some? ==> m.taskProcess == c.value.taskProcess)
  {
  }

  lemma AppliedParses(t: Tables, e: WorkEvent, nowMs: int)
    requires RowsParse(t)
    ensures RowsParse(Applied(t, e, nowMs))
  {
  }

  /** An event already recorded changes no more than an update time. */
  lemma AbsorbedChangesNothing(t: Tables, e: WorkEvent, nowMs: int)
    requires Absorbed(t, e)
    ensures AlikeButUpdateTimes(t, Applied(t, e, nowMs))
  {
  }

  lemma AppliedIsAbsorbed(t: Tables, e: WorkEvent, nowMs: int)
    requires RowsParse(t) && (e.WorkLaunched? || e.id in t.items)
    ensures Absorbed(Applied(t, e, nowMs), e)
  {
    if e.WorkProgressed? && !t.items[e.id].state.Terminal? {
      FirstWriterWins(t.items[e.id].continuation, e.learned, None);
    }
  }

  lemma AbsorbedStays(t: Tables, e: WorkEvent, later: WorkEvent, nowMs: int)
    requires RowsParse(t) && Absorbed(t, e)
    ensures Absorbed(Applied(t, later, nowMs), e)
  {
    if e.WorkProgressed? && later.WorkProgressed? && later.id == e.id {
      FirstWriterWins(t.items[e.id].continuation, e.learned, later.learned);
    }
  }

  lemma {:induction false} StaysAbsorbed(t: Tables, e: WorkEvent, stream: seq<WorkEvent>, times: seq<int>)
    requires RowsParse(t) && Absorbed(t, e) && |times| == |stream|
    ensures Absorbed(AppliedAll(t, stream, times), e)
    decreases stream
  {
    if stream != [] {
      AbsorbedStays(t, e, stream[0], times[0]);
      AppliedParses(t, stream[0], times[0]);
      StaysAbsorbed(Applied(t, stream[0], times[0]), e, stream[1..], times[1..]);
    }
  }

  lemma {:induction false} StreamIsAbsorbed(t: Tables, stream: seq<WorkEvent>, times: seq<int>)
    requires RowsParse(t) && LaunchedFirst(t.items.Keys, stream) && |times| == |stream|
    ensures forall e :: e in stream ==> Absorbed(AppliedAll(t, stream, times), e)
    decreases stream
  {
    if stream != [] {
      var u := Applied(t, stream[0], times[0]);
      AppliedParses(t, stream[0], times[0]);
      AppliedIsAbsorbed(t, stream[0], times[0]);
      assert u.items.Keys == t.items.Keys + {stream[0].id};
      StreamIsAbsorbed(u, stream[1..], times[1..]);
      StaysAbsorbed(u, stream[0], stream[1..], times[1..]);
      forall e | e in stream ensures Absorbed(AppliedAll(t, stream, times), e) {
        assert e == stream[0] || e in stream[1..];
      }
    }
  }

  lemma AbsorbedAlike(t: Tables, u: Tables, e: WorkEvent)
    requires Absorbed(t, e) && AlikeButUpdateTimes(t, u)
    ensures Absorbed(u, e)
  {
  }

  lemma {:induction false} AbsorbedStreamChangesNothing(t: Tables, stream: seq<WorkEvent>, times: seq<int>)
    requires |times| == |stream| && forall e :: e in stream ==> Absorbed(t, e)
    ensures AlikeButUpdateTimes(t, AppliedAll(t, stream, times))
    decreases stream
  {
    if stream != [] {
      FirstIsIn(stream);
      var u := Applied(t, stream[0], times[0]);
      AbsorbedChangesNothing(t, stream[0], times[0]);
      forall e | e in stream[1..] ensures Absorbed(u, e) {
        AbsorbedAlike(t, u, e);
      }
      AbsorbedStreamChangesNothing(u, stream[1..], times[1..]);
    }
  }

  /** Observing a rollout again leaves the record as observing it once, apart from update times. */
  lemma ReobservingChangesNothing(t: Tables, stream: seq<WorkEvent>, times: seq<int>, again: seq<int>)
    requires RowsParse(t) && LaunchedFirst(t.items.Keys, stream) && |times| == |again| == |stream|
    ensures var once := AppliedAll(t, stream, times);
            AlikeButUpdateTimes(once, AppliedAll(once, stream, again))
  {
    StreamIsAbsorbed(t, stream, times);
    AbsorbedStreamChangesNothing(AppliedAll(t, stream, times), stream, again);
  }

  // ----- The streams the fold emits -----

  /** The work open in the fold, by its key: the name it was launched or seeded under. */
  type OpenWork = map<string, string>

  datatype Observation =
    | Opens(key: string, id: string, isWakeup: bool, work: Work, learned: Option<Continuation>)
    | Closes(key: string, outcome: Outcome, evidence: string)
    | Notifies(key: string, learned: Option<Continuation>)

  const SUPERSEDED := "superseded by a later ScheduleWakeup"

  /** What the fold has open after an observation, and what it emits: ends and progress of open work only. */
  function Folded(open: OpenWork, o: Observation): (r: (OpenWork, seq<WorkEvent>)) {
    match o
    case Opens(key, id, isWakeup, work, learned) =>
      var launched := WorkLaunched(id, work, learned);
      if isWakeup && key in open
      then (open[key := id], [WorkEnded(open[key], Cancelled, SUPERSEDED), launched])
      else if key in open then (open, [])
      else (open[key := id], [launched])
    case Closes(key, outcome, evidence) =>
      if key in open then (open - {key}, [WorkEnded(open[key], outcome, evidence)]) else (open, [])
    case Notifies(key, learned) =>
      if key in open then (open, [WorkProgressed(open[key], learned)]) else (open, [])
  }

  function Emitted(open: OpenWork, observations: seq<Observation>): seq<WorkEvent>
    decreases observations
  {
    if observations == [] then []
    else
      var r := Folded(open, observations[0]);
      r.1 + Emitted(r.0, observations[1..])
  }

  lemma {:induction false} LaunchedFirstGrows(known: set<string>, more: set<string>, stream: seq<WorkEvent>)
    requires known <= more && LaunchedFirst(known, stream)
    ensures LaunchedFirst(more, stream)
    decreases stream
  {
    if stream != [] {
      LaunchedFirstGrows(known + {stream[0].id}, more + {stream[0].id}, stream[1..]);
    }
  }

  lemma {:induction false} LaunchedFirstConcat(known: set<string>, a: seq<WorkEvent>, b: seq<WorkEvent>,
                                               more: set<string>)
    requires LaunchedFirst(known, a) && LaunchedFirst(more, b)
    requires forall id :: id in more ==> id in known || exists e :: e in a && e.id == id
    ensures LaunchedFirst(known, a + b)
    decreases a
  {
    if a == [] {
      assert a + b == b;
      LaunchedFirstGrows(more, known, b);
    } else {
      assert (a + b)[1..] == a[1..] + b;
      forall id | id in more ensures id in known + {a[0].id} || exists e :: e in a[1..] && e.id == id {
        if id !in known && id != a[0].id {
          var e :| e in a && e.id == id;
          assert e in a[1..];
        }
      }
      LaunchedFirstConcat(known + {a[0].id}, a[1..], b, more);
    }
  }

  lemma FoldedIsKnown(open: OpenWork, o: Observation, known: set<string>)
    requires open.Values <= known
    ensures var r := Folded(open, o);
            LaunchedFirst(known, r.1) && r.0.Values <= known + (set e | e in r.1 :: e.id)
  {
    var r := Folded(open, o);
    forall id | id in r.0.Values ensures id in known + (set e | e in r.1 :: e.id) {
      var key :| key in r.0 && r.0[key] == id;
      if key in open && open[key] == id {
        assert id in open.Values;
      } else {
        assert o.Opens? && o.id == id && WorkLaunched(id, o.work, o.learned) in r.1;
      }
    }
    if r.1 != [] {
      assert r.1[1..] == [] || (|r.1| == 2 && r.1[1..] == [r.1[1]] && r.1[1..][1..] == []);
      assert o.key in open ==> open[o.key] in open.Values;
    }
  }

  /** Work seeded from the record and work launched is all the fold ever tells of. */
  lemma {:induction false} FoldLaunchesFirst(open: OpenWork, observations: seq<Observation>, known: set<string>)
    requires open.Values <= known
    ensures LaunchedFirst(known, Emitted(open, observations))
    decreases observations
  {
    if observations != [] {
      var r := Folded(open, observations[0]);
      var more := known + (set e | e in r.1 :: e.id);
      FoldedIsKnown(open, observations[0], known);
      FoldLaunchesFirst(r.0, observations[1..], more);
      LaunchedFirstConcat(known, r.1, Emitted(r.0, observations[1..]), more);
    }
  }

  /** So observing a rollout again changes nothing, when what the fold was seeded with is on record. */
  lemma FoldReobservedChangesNothing(t: Tables, open: OpenWork, observations: seq<Observation>, times: seq<int>,
                                     again: seq<int>)
    requires RowsParse(t) && open.Values <= t.items.Keys
    requires |times| == |again| == |Emitted(open, observations)|
    ensures var once := AppliedAll(t, Emitted(open, observations), times);
            AlikeButUpdateTimes(once, AppliedAll(once, Emitted(open, observations), again))
  {
    FoldLaunchesFirst(open, observations, t.items.Keys);
    ReobservingChangesNothing(t, Emitted(open, observations), times, again);
  }

  // ----- Observing again from the record -----

  /** The record holds what the fold tells of a rollout. */
  ghost predicate Observed(t: Tables, open: OpenWork, observations: seq<Observation>) {
    RowsParse(t) && open.Values <= t.items.Keys && forall e :: e in Emitted(open, observations) ==> Absorbed(t, e)
  }

  lemma {:induction false} AppliedAllParses(t: Tables, stream: seq<WorkEvent>, times: seq<int>)
    requires RowsParse(t) && |times| == |stream|
    ensures RowsParse(AppliedAll(t, stream, times)) && t.items.Keys <= AppliedAll(t, stream, times).items.Keys
    decreases stream
  {
    if stream != [] {
      AppliedParses(t, stream[0], times[0]);
      AppliedAllParses(Applied(t, stream[0], times[0]), stream[1..], times[1..]);
    }
  }

  lemma ObservedOnce(t: Tables, open: OpenWork, observations: seq<Observation>, times: seq<int>)
    requires RowsParse(t) && open.Values <= t.items.Keys && |times| == |Emitted(open, observations)|
    ensures Observed(AppliedAll(t, Emitted(open, observations), times), open, observations)
  {
    FoldLaunchesFirst(open, observations, t.items.Keys);
    StreamIsAbsorbed(t, Emitted(open, observations), times);
    AppliedAllParses(t, Emitted(open, observations), times);
  }

  /** A snapshot taken since does not matter. */
  lemma SnapshotKeepsObserved(t: Tables, open: OpenWork, observations: seq<Observation>, n: nat, oldSessionId: string,
                              ids: set<string>, nowMs: int)
    requires Observed(t, open, observations)
    ensures Observed(Allocated(t, n, oldSessionId, ids, nowMs), open, observations)
  {
    forall e | e in Emitted(open, observations) ensures Absorbed(Allocated(t, n, oldSessionId, ids, nowMs), e) {
      assert Absorbed(t, e);
    }
  }

  /** A stream launched in order changes nothing exactly when all it tells is recorded. */
  lemma ChangesNothingIffAbsorbed(t: Tables, stream: seq<WorkEvent>, times: seq<int>)
    requires RowsParse(t) && LaunchedFirst(t.items.Keys, stream) && |times| == |stream|
    ensures AlikeButUpdateTimes(t, AppliedAll(t, stream, times)) <==> forall e :: e in stream ==> Absorbed(t, e)
  {
    var u := AppliedAll(t, stream, times);
    if AlikeButUpdateTimes(t, u) {
      StreamIsAbsorbed(t, stream, times);
      forall e | e in stream ensures Absorbed(t, e) {
        assert Absorbed(u, e) && u.items[e.id].(updatedAtMs := t.items[e.id].updatedAtMs) == t.items[e.id];
      }
    } else if forall e :: e in stream ==> Absorbed(t, e) {
      AbsorbedStreamChangesNothing(t, stream, times);
    }
  }

  /** A seed read from the record: unfinished work by its key. */
  ghost predicate SeedOf(t: Tables, seed: OpenWork) {
    forall key :: key in seed ==> IsUnfinished(t, seed[key])
  }

  /** The observation ends seeded work, or tells a fact of it that is not recorded. */
  predicate Disturbs(t: Tables, seed: OpenWork, o: Observation) {
    && o.key in seed && seed[o.key] in t.items
    && match o
       case Opens(_, _, isWakeup, _, _) => isWakeup
       case Closes(_, _, _) => true
       case Notifies(key, learned) =>
         Merged(t.items[seed[key]].continuation, learned) != t.items[seed[key]].continuation
  }

  /** A key the first fold was seeded with, and the second is not, is opened under the name it had. */
  ghost predicate NamesAgree(open: OpenWork, seed: OpenWork, observations: seq<Observation>) {
    forall o :: o in observations && o.Opens? && !o.isWakeup && o.key in open && o.key !in seed ==> o.id == open[o.key]
  }

  ghost predicate StillSeeded(seed: OpenWork, now: OpenWork) {
    forall key :: key in seed ==> key in now && now[key] == seed[key]
  }

  /** Seeded work stays open under its name until an observation disturbs it. */
  lemma UndisturbedStaysSeeded(t: Tables, seed: OpenWork, now: OpenWork, o: Observation)
    requires SeedOf(t, seed) && StillSeeded(seed, now) && !Disturbs(t, seed, o)
    ensures StillSeeded(seed, Folded(now, o).0)
    ensures o.key in seed ==> forall e :: e in Folded(now, o).1 ==> Absorbed(t, e)
  {
  }

  lemma DisturbedTells(t: Tables, seed: OpenWork, now: OpenWork, o: Observation)
    requires SeedOf(t, seed) && StillSeeded(seed, now) && Disturbs(t, seed, o)
    ensures Folded(now, o).1 != [] && !Absorbed(t, Folded(now, o).1[0])
  {
  }

  lemma {:induction false} DisturbanceIsTold(t: Tables, seed: OpenWork, now: OpenWork, observations: seq<Observation>)
    requires SeedOf(t, seed) && StillSeeded(seed, now) && exists o :: o in observations && Disturbs(t, seed, o)
    ensures exists e :: e in Emitted(now, observations) && !Absorbed(t, e)
    decreases observations
  {
    var first, r := observations[0], Folded(now, observations[0]);
    if Disturbs(t, seed, first) {
      DisturbedTells(t, seed, now, first);
      assert r.1[0] in r.1 + Emitted(r.0, observations[1..]);
    } else {
      UndisturbedStaysSeeded(t, seed, now, first);
      var o :| o in observations && Disturbs(t, seed, o);
      assert o in observations[1..];
      DisturbanceIsTold(t, seed, r.0, observations[1..]);
    }
  }

  /**
   The two folds side by side, away from the seed: alike at each key, or the second has nothing
   open yet where the first still has what it was seeded with.
   */
  ghost predicate SideBySide(open: OpenWork, seed: OpenWork, first: OpenWork, second: OpenWork) {
    forall key :: key !in seed ==>
      || ((key in first <==> key in second) && (key in first ==> first[key] == second[key]))
      || (key !in second && key in first && key in open && first[key] == open[key])
  }

  /** What the second fold tells away from the seed the first told too, or it is an old launch. */
  lemma SideBySideStep(t: Tables, open: OpenWork, seed: OpenWork, first: OpenWork, second: OpenWork, o: Observation)
    requires SideBySide(open, seed, first, second) && open.Values <= t.items.Keys && NamesAgree(open, seed, [o])
    ensures SideBySide(open, seed, Folded(first, o).0, Folded(second, o).0)
    ensures o.key !in seed ==>
              forall e :: e in Folded(second, o).1 ==> e in Folded(first, o).1 || (e.WorkLaunched? && e.id in t.items)
  {
    assert o in [o];
    if o.key in open {
      assert open[o.key] in open.Values;
    }
  }

  lemma {:induction false} UndisturbedIsAbsorbed(t: Tables, open: OpenWork, seed: OpenWork, first: OpenWork,
                                                 second: OpenWork, observations: seq<Observation>)
    requires SeedOf(t, seed) && StillSeeded(seed, second) && SideBySide(open, seed, first, second)
    requires open.Values <= t.items.Keys && NamesAgree(open, seed, observations)
    requires forall e :: e in Emitted(first, observations) ==> Absorbed(t, e)
    requires forall o :: o in observations ==> !Disturbs(t, seed, o)
    ensures forall e :: e in Emitted(second, observations) ==> Absorbed(t, e)
    decreases observations
  {
    if observations != [] {
      var o, rest := observations[0], observations[1..];
      var r1, r2 := Folded(first, o), Folded(second, o);
      assert o in observations;
      assert NamesAgree(open, seed, [o]) && NamesAgree(open, seed, rest);
      UndisturbedStaysSeeded(t, seed, second, o);
      SideBySideStep(t, open, seed, first, second, o);
      assert forall e :: e in r1.1 || e in Emitted(r1.0, rest) ==> e in r1.1 + Emitted(r1.0, rest);
      UndisturbedIsAbsorbed(t, open, seed, r1.0, r2.0, rest);
    }
  }

  /**
   A rollout is observed again by a fold seeded from the record. That changes nothing exactly when
   the rollout neither closes a seeded key, nor opens it as a wakeup, nor tells a new fact of it.
   */
  lemma ReobservingFromRecordIff(t: Tables, open: OpenWork, seed: OpenWork, observations: seq<Observation>,
                                 again: seq<int>)
    requires Observed(t, open, observations) && SeedOf(t, seed) && NamesAgree(open, seed, observations)
    requires |again| == |Emitted(seed, observations)|
    ensures AlikeButUpdateTimes(t, AppliedAll(t, Emitted(seed, observations), again))
            <==> forall o :: o in observations ==> !Disturbs(t, seed, o)
  {
    FoldLaunchesFirst(seed, observations, t.items.Keys);
    ChangesNothingIffAbsorbed(t, Emitted(seed, observations), again);
    if forall o :: o in observations ==> !Disturbs(t, seed, o) {
      UndisturbedIsAbsorbed(t, open, seed, open, seed, observations);
    } else {
      DisturbanceIsTold(t, seed, seed, observations);
    }
  }

  lemma {:induction false} EndingStays(t: Tables, id: string, stream: seq<WorkEvent>, times: seq<int>)
    requires |times| == |stream| && id in t.items && t.items[id].state.Terminal?
    ensures id in AppliedAll(t, stream, times).items && AppliedAll(t, stream, times).items[id] == t.items[id]
    decreases stream
  {
    if stream != [] {
      EndingStays(Applied(t, stream[0], times[0]), id, stream[1..], times[1..]);
    }
  }

  /** A rollout that schedules one wakeup and then another. */
  function TwoWakeups(key: string, a: string, b: string, work: Work): seq<Observation> {
    [Opens(key, a, true, work, None), Opens(key, b, true, work, None)]
  }

  lemma WakeupStreams(key: string, a: string, b: string, work: Work)
    ensures Emitted(map[], TwoWakeups(key, a, b, work))
            == [WorkLaunched(a, work, None)] + [WorkEnded(a, Cancelled, SUPERSEDED), WorkLaunched(b, work, None)]
    ensures Emitted(map[key := b], TwoWakeups(key, a, b, work))
            == [WorkEnded(b, Cancelled, SUPERSEDED), WorkLaunched(a, work, None)]
               + [WorkEnded(a, Cancelled, SUPERSEDED), WorkLaunched(b, work, None)]
  {
    var observations := TwoWakeups(key, a, b, work);
    assert observations[1..] == [observations[1]] && observations[1..][1..] == [];
    assert map[key := b][key := a] == map[key := a];
    assert Emitted(map[key := a], observations[1..])
           == [WorkEnded(a, Cancelled, SUPERSEDED), WorkLaunched(b, work, None)] + [];
  }

  lemma AppliedThree(t: Tables, stream: seq<WorkEvent>, times: seq<int>)
    requires |stream| == |times| == 3
    ensures AppliedAll(t, stream, times)
            == Applied(Applied(Applied(t, stream[0], times[0]), stream[1], times[1]), stream[2], times[2])
  {
    var two, one := stream[1..], stream[1..][1..];
    assert one[1..] == [] && two[0] == stream[1] && one[0] == stream[2];
    assert times[1..][0] == times[1] && times[1..][1..][0] == times[2];
    var t1 := Applied(t, stream[0], times[0]);
    var t2 := Applied(t1, two[0], times[1..][0]);
    var t3 := Applied(t2, one[0], times[1..][1..][0]);
    assert AppliedAll(t2, one, times[1..][1..]) == AppliedAll(t3, one[1..], times[1..][1..][1..]) == t3;
    assert AppliedAll(t1, two, times[1..]) == t3;
  }

  lemma WakeupsObserved(key: string, a: string, b: string, work: Work, times: seq<int>)
    requires a != b && |times| == 3 && Emitted(map[], TwoWakeups(key, a, b, work))
      == [WorkLaunched(a, work, None)] + [WorkEnded(a, Cancelled, SUPERSEDED), WorkLaunched(b, work, None)]
    ensures var t := AppliedAll(Tables(map[], map[], map[]), Emitted(map[], TwoWakeups(key, a, b, work)), times);
            IsUnfinished(t, b) && t.items[b].generation == 0
  {
    var stream := Emitted(map[], TwoWakeups(key, a, b, work));
    var t1 := Applied(Tables(map[], map[], map[]), stream[0], times[0]);
    var t2 := Applied(t1, stream[1], times[1]);
    var t3 := Applied(t2, stream[2], times[2]);
    assert b !in t2.items && IsUnfinished(t3, b);
    AppliedThree(Tables(map[], map[], map[]), stream, times);
  }

  /**
   Observed again from a seed that holds the second wakeup, which a snapshot took along, the
   rollout's first wakeup ends the second, live as it is.
   */
  lemma LiveWakeupIsEnded(key: string, a: string, b: string, work: Work, times: seq<int>, again: seq<int>)
    requires a != b && |times| == 3 && |again| == 4
    ensures var observations := TwoWakeups(key, a, b, work);
            |Emitted(map[], observations)| == 3 && |Emitted(map[key := b], observations)| == 4
            && var once := AppliedAll(Tables(map[], map[], map[]), Emitted(map[], observations), times);
               var t := Allocated(once, 1, "session", {b}, 0);
               var u := AppliedAll(t, Emitted(map[key := b], observations), again);
            && IsUnfinished(t, b) && t.items[b].generation == 1
            && b in u.items && u.items[b].ending == Some(Ending(Cancelled, SUPERSEDED, again[0]))
  {
    WakeupStreams(key, a, b, work);
    WakeupsObserved(key, a, b, work, times);
    var once := AppliedAll(Tables(map[], map[], map[]), Emitted(map[], TwoWakeups(key, a, b, work)), times);
    var t, stream := Allocated(once, 1, "session", {b}, 0), Emitted(map[key := b], TwoWakeups(key, a, b, work));
    EndingStays(Applied(t, stream[0], again[0]), b, stream[1..], again[1..]);
  }

  // ----- Streams in any order -----

  predicate LaunchedIn(stream: seq<WorkEvent>, id: string) {
    exists e :: e in stream && e.WorkLaunched? && e.id == id
  }

  function KnownAfter(known: set<string>, e: WorkEvent): set<string> {
    if e.WorkLaunched? then known + {e.id} else known
  }

  /** Some end of this name comes once the name is known. */
  predicate EndsWhileKnown(known: set<string>, stream: seq<WorkEvent>, id: string)
    decreases stream
  {
    stream != [] &&
    ((stream[0].WorkEnded? && stream[0].id == id && id in known)
     || EndsWhileKnown(KnownAfter(known, stream[0]), stream[1..], id))
  }

  /** The event comes before the launch of its name. */
  predicate IsEarly(known: set<string>, stream: seq<WorkEvent>)
    requires stream != []
  {
    !stream[0].WorkLaunched? && stream[0].id !in known && LaunchedIn(stream[1..], stream[0].id)
  }

  /** No progress comes before the launch of its name. */
  predicate NoEarlyProgress(known: set<string>, stream: seq<WorkEvent>)
    decreases stream
  {
    stream != [] ==>
      && (stream[0].WorkProgressed? ==> !IsEarly(known, stream))
      && NoEarlyProgress(KnownAfter(known, stream[0]), stream[1..])
  }

  /** Every end that comes before the launch of its name is followed by another one after it. */
  predicate EarlyEndsComeAgain(known: set<string>, stream: seq<WorkEvent>)
    decreases stream
  {
    stream != [] ==>
      && (stream[0].WorkEnded? && IsEarly(known, stream) ==> EndsWhileKnown(known, stream[1..], stream[0].id))
      && EarlyEndsComeAgain(KnownAfter(known, stream[0]), stream[1..])
  }

  /** What a stream leaves of one name: whether it is recorded, and whether it has ended. */
  lemma {:induction false} LeftByStream(t: Tables, stream: seq<WorkEvent>, times: seq<int>, id: string)
    requires |times| == |stream|
    ensures var u := AppliedAll(t, stream, times);
      && (id in u.items <==> id in t.items || LaunchedIn(stream, id))
      && (id in u.items && u.items[id].state.Terminal?
          <==> (id in t.items && t.items[id].state.Terminal?) || EndsWhileKnown(t.items.Keys, stream, id))
    decreases stream
  {
    if stream != [] {
      var u := Applied(t, stream[0], times[0]);
      assert u.items.Keys == KnownAfter(t.items.Keys, stream[0]);
      LeftByStream(u, stream[1..], times[1..], id);
      assert LaunchedIn(stream, id)
             <==> (stream[0].WorkLaunched? && stream[0].id == id) || LaunchedIn(stream[1..], id) by {
        forall e | e in stream ensures e == stream[0] || e in stream[1..] {
        }
      }
    }
  }

  /** The event says nothing new: it is recorded, or it is about a name that is not. */
  predicate SaysNothing(t: Tables, e: WorkEvent) {
    Absorbed(t, e) || (!e.WorkLaunched? && e.id !in t.items)
  }

  lemma {:induction false} StreamSaysNothingNew(t: Tables, stream: seq<WorkEvent>, times: seq<int>)
    requires RowsParse(t) && |times| == |stream|
    requires NoEarlyProgress(t.items.Keys, stream) && EarlyEndsComeAgain(t.items.Keys, stream)
    ensures forall e :: e in stream ==> SaysNothing(AppliedAll(t, stream, times), e)
    decreases stream
  {
    if stream != [] {
      var e, u := stream[0], Applied(t, stream[0], times[0]);
      AppliedParses(t, e, times[0]);
      assert u.items.Keys == KnownAfter(t.items.Keys, e);
      StreamSaysNothingNew(u, stream[1..], times[1..]);
      if e.WorkLaunched? || e.id in t.items {
        AppliedIsAbsorbed(t, e, times[0]);
        StaysAbsorbed(u, e, stream[1..], times[1..]);
      } else {
        LeftByStream(u, stream[1..], times[1..], e.id);
      }
      forall f | f in stream ensures SaysNothing(AppliedAll(t, stream, times), f) {
        assert f == e || f in stream[1..];
      }
    }
  }

  lemma NothingSaidChangesNothing(t: Tables, e: WorkEvent, nowMs: int)
    requires SaysNothing(t, e)
    ensures AlikeButUpdateTimes(t, Applied(t, e, nowMs))
  {
    if Absorbed(t, e) {
      AbsorbedChangesNothing(t, e, nowMs);
    }
  }

  lemma {:induction false} NothingNewChangesNothing(t: Tables, stream: seq<WorkEvent>, times: seq<int>)
    requires |times| == |stream| && forall e :: e in stream ==> SaysNothing(t, e)
    ensures AlikeButUpdateTimes(t, AppliedAll(t, stream, times))
    decreases stream
  {
    if stream != [] {
      FirstIsIn(stream);
      var u := Applied(t, stream[0], times[0]);
      NothingSaidChangesNothing(t, stream[0], times[0]);
      forall e | e in stream[1..] ensures SaysNothing(u, e) {
        assert e in stream;
        if Absorbed(t, e) {
          AbsorbedAlike(t, u, e);
        }
      }
      NothingNewChangesNothing(u, stream[1..], times[1..]);
    }
  }

  lemma {:induction false} EndsOnceKnown(known: set<string>, stream: seq<WorkEvent>, id: string, e: WorkEvent)
    requires id in known && e in stream && e.WorkEnded? && e.id == id
    ensures EndsWhileKnown(known, stream, id)
    decreases stream
  {
    if stream[0] != e {
      assert e in stream[1..];
      EndsOnceKnown(KnownAfter(known, stream[0]), stream[1..], id, e);
    }
  }

  /** A name whose only ends come before its launch. */
  lemma {:induction false} UnrepeatedEnd(known: set<string>, stream: seq<WorkEvent>) returns (e: WorkEvent)
    requires !EarlyEndsComeAgain(known, stream)
    ensures e in stream && e.WorkEnded? && e.id !in known && LaunchedIn(stream, e.id)
            && !EndsWhileKnown(known, stream, e.id)
    decreases stream
  {
    if stream[0].WorkEnded? && IsEarly(known, stream) && !EndsWhileKnown(known, stream[1..], stream[0].id) {
      e := stream[0];
      var l :| l in stream[1..] && l.WorkLaunched? && l.id == e.id;
      assert l in stream;
    } else {
      e := UnrepeatedEnd(KnownAfter(known, stream[0]), stream[1..]);
      var l :| l in stream[1..] && l.WorkLaunched? && l.id == e.id;
      assert l in stream;
    }
  }

  /**
   Whatever the order of a stream whose progress does not come before its launch: applying it
   again changes no more than update times exactly when every end that comes before its launch
   comes again after it.
   */
  lemma ReobservingChangesNothingIff(t: Tables, stream: seq<WorkEvent>, times: seq<int>, again: seq<int>)
    requires RowsParse(t) && |times| == |again| == |stream| && NoEarlyProgress(t.items.Keys, stream)
    ensures var once := AppliedAll(t, stream, times);
            AlikeButUpdateTimes(once, AppliedAll(once, stream, again)) <==> EarlyEndsComeAgain(t.items.Keys, stream)
  {
    var once := AppliedAll(t, stream, times);
    if EarlyEndsComeAgain(t.items.Keys, stream) {
      StreamSaysNothingNew(t, stream, times);
      NothingNewChangesNothing(once, stream, again);
    } else {
      var e := UnrepeatedEnd(t.items.Keys, stream);
      LeftByStream(t, stream, times, e.id);
      EndsOnceKnown(once.items.Keys, stream, e.id, e);
      LeftByStream(once, stream, again, e.id);
    }
  }

  /** An end that comes before its launch is dropped the first time and taken the second. */
  lemma EndBeforeLaunchIsTakenLater(t: Tables, id: string, work: Work, outcome: Outcome, evidence: string,
                                    times: seq<int>)
    requires id !in t.items && |times| == 2 && RowsParse(t)
    ensures var stream := [WorkEnded(id, outcome, evidence), WorkLaunched(id, work, None)];
            var once := AppliedAll(t, stream, times);
            !AlikeButUpdateTimes(once, AppliedAll(once, stream, times))
  {
    var stream := [WorkEnded(id, outcome, evidence), WorkLaunched(id, work, None)];
    assert stream[1..] == [stream[1]] && stream[1..][1..] == [];
    assert stream[1] in stream[1..] && LaunchedIn(stream[1..], id);
    assert !EndsWhileKnown(t.items.Keys, stream[1..], id);
    ReobservingChangesNothingIff(t, stream, times, times);
  }
}
