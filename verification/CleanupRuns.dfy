/**
 The record and the files together, over runs of store steps, cleanups and files written by
 others: what could be read of a carried item's output can be read for good.
 */
module CleanupRuns {
  import opened Basics
  import opened ContinuityStore
  import opened Cleanup
  import OutputReads
  import Snapshots
  import ContinuityRuns

  datatype Move =
    | Record(step: ContinuityRuns.Step)
    | CleanUp(id: string, outside: Outside)
    | Write(path: Path, file: File)
    | Remove(path: Path)

  predicate IsOutside(path: Path) {
    !path.CopyOf?
  }

  /** The identity of an output is a file that is nobody's copy. */
  predicate OwnsOutside(i: Identity) {
    i.PosixOutput? || i.Win32Output? ==> IsOutside(i.path)
  }

  /** Only cleanups write copies: no other file and no output is at a copy's path. */
  predicate Allowed(m: Move) {
    match m
    case Record(step) =>
      && !step.action.Clean?
      && (step.action.Qualify? ==> OwnsOutside(step.action.identity))
      && (step.action.RecordRelaunch? ==> IsOutside(step.action.relaunch.outputPath))
    case CleanUp(_, _) => true
    case Write(path, _) => IsOutside(path)
    case Remove(path) => IsOutside(path)
  }

  /** A cleanup as a step of the record, with the files it finds. */
  function StepOf(w: World, m: Move): ContinuityRuns.Step
    requires m.Record? || m.CleanUp?
  {
    if m.Record? then m.step else ContinuityRuns.Step(ContinuityRuns.Clean(m.id, w.files, m.outside), 0)
  }

  ghost function Moved(w: World, m: Move): World {
    match m
    case Record(step) => w.(tables := ContinuityRuns.After(w.tables, step))
    case CleanUp(id, o) =>
      if id in w.tables.items
      then World(Cleaned(w.tables, w.files, id, o).tables, Cleaned(w.tables, w.files, id, o).files)
      else w
    case Write(path, file) => w.(files := w.files[path := file])
    case Remove(path) => w.(files := w.files - {path})
  }

  ghost function MovedAll(w: World, moves: seq<Move>): World
    decreases moves
  {
    if moves == [] then w else MovedAll(Moved(w, moves[0]), moves[1..])
  }

  ghost predicate AllAllowed(moves: seq<Move>) {
    forall m :: m in moves ==> Allowed(m)
  }

  /** No item is launched again under a name whose earlier output was copied. */
  ghost predicate NeverLaunchesCopied(w: World, moves: seq<Move>)
    decreases moves
  {
    moves != [] ==>
      && (moves[0].Record? ==> !ContinuityRuns.LaunchesCopied(w.tables, moves[0].step))
      && NeverLaunchesCopied(Moved(w, moves[0]), moves[1..])
  }

  predicate Launches(m: Move, id: string) {
    m.Record? && m.step.action.Launch? && m.step.action.id == id
  }

  // ----- What every run keeps -----

  ghost predicate OutputsOutside(t: Tables) {
    forall id :: id in t.items ==>
      && (t.items[id].identity.Some? ==> OwnsOutside(t.items[id].identity.value))
      && (t.items[id].relaunch.Some? ==> IsOutside(t.items[id].relaunch.value.outputPath))
  }

  ghost predicate Safe(w: World) {
    ContinuityRuns.Sound(w.tables) && OutputsOutside(w.tables) && ContinuityRuns.NoneCopied(w.tables)
  }

  lemma {:induction false} AcknowledgeKeepsOutside(t: Tables, keys: seq<string>)
    requires OutputsOutside(t)
    ensures OutputsOutside(AcknowledgedAll(t, keys))
    decreases keys
  {
    if keys != [] {
      AcknowledgeKeepsOutside(Acknowledged(t, keys[0]), keys[1..]);
    }
  }

  lemma ItemStepKeepsOutside(t: Tables, s: ContinuityRuns.Step)
    requires OutputsOutside(t) && ContinuityRuns.IsItemStep(s.action) && Allowed(Record(s))
    ensures OutputsOutside(ContinuityRuns.After(t, s))
  {
  }

  lemma StepKeepsOutside(t: Tables, s: ContinuityRuns.Step)
    requires ContinuityRuns.Sound(t) && OutputsOutside(t) && (s.action.Clean? || Allowed(Record(s)))
    ensures OutputsOutside(ContinuityRuns.After(t, s))
  {
    if ContinuityRuns.IsItemStep(s.action) {
      ItemStepKeepsOutside(t, s);
    } else {
      match s.action
      case Acknowledge(keys) => AcknowledgeKeepsOutside(t, Distinct(keys));
      case Clean(id, files, o) =>
        if id in t.items {
          CleaningIsLocal(t, files, id, o);
        }
      case Snapshot(oldSessionId) =>
        if Snapshots.MaySnapshot(t) {
          ContinuityRuns.SnapshotStamps(t, oldSessionId, s.nowMs);
        }
      case End(_, _, _) =>
      case Close(_) =>
      case DropGenerations =>
    }
  }

  lemma MoveStaysSafe(w: World, m: Move)
    requires Safe(w) && Allowed(m) && (m.Record? ==> !ContinuityRuns.LaunchesCopied(w.tables, m.step))
    ensures Safe(Moved(w, m))
  {
    if m.Record? || m.CleanUp? {
      var s := StepOf(w, m);
      assert Moved(w, m).tables == ContinuityRuns.After(w.tables, s);
      ContinuityRuns.StepKeepsSound(w.tables, s);
      ContinuityRuns.StepCopies(w.tables, s);
      StepKeepsOutside(w.tables, s);
    }
  }

  lemma {:induction false} RunsStaySafe(w: World, moves: seq<Move>)
    requires Safe(w) && AllAllowed(moves) && NeverLaunchesCopied(w, moves)
    ensures Safe(MovedAll(w, moves))
    decreases moves
  {
    if moves != [] {
      FirstIsIn(moves);
      MoveStaysSafe(w, moves[0]);
      RunsStaySafe(Moved(w, moves[0]), moves[1..]);
    }
  }

  // ----- A copy stays -----

  /** The item is gone, its result points at its copy, and the copy is there. */
  ghost predicate Kept(w: World, id: string, artifact: Artifact, file: File) {
    && id !in w.tables.items && id in w.tables.results && w.tables.results[id].artifact == Some(artifact)
    && artifact.OwnedCopy? && artifact.path == CopyOf(id) && CopyOf(id) in w.files && w.files[CopyOf(id)] == file
  }

  lemma CleaningLeavesOtherCopies(t: Tables, files: Files, id: string, o: Outside, other: string)
    requires OutputsOutside(t) && id in t.items && other != id && CopyOf(other) in files
    ensures var c := Cleaned(t, files, id, o);
            CopyOf(other) in c.files && c.files[CopyOf(other)] == files[CopyOf(other)]
  {
  }

  lemma OthersAreNotLaunched(t: Tables, s: ContinuityRuns.Step, id: string)
    requires id !in t.items && !(s.action.Launch? && s.action.id == id)
    ensures id !in ContinuityRuns.After(t, s).items
  {
    match s.action
    case Acknowledge(keys) => ContinuityRuns.AcknowledgeCopiesNothing(t, Distinct(keys));
    case Clean(k, files, o) =>
      if k in t.items {
        CleaningIsLocal(t, files, k, o);
      }
    case _ =>
  }

  lemma MoveStaysKept(w: World, m: Move, id: string, artifact: Artifact, file: File)
    requires ContinuityRuns.Sound(w.tables) && OutputsOutside(w.tables) && Kept(w, id, artifact, file)
    requires Allowed(m) && !Launches(m, id)
    ensures Kept(Moved(w, m), id, artifact, file)
  {
    if m.Record? || m.CleanUp? {
      var s := StepOf(w, m);
      assert Moved(w, m).tables == ContinuityRuns.After(w.tables, s);
      ContinuityRuns.StepStands(w.tables, s);
      assert ContinuityRuns.ResultStands(w.tables.results[id], Moved(w, m).tables.results[id]);
      OthersAreNotLaunched(w.tables, s, id);
      if m.CleanUp? && m.id in w.tables.items {
        CleaningLeavesOtherCopies(w.tables, w.files, m.id, m.outside, id);
      }
    }
  }

  lemma MoveKeepsRest(w: World, m: Move)
    requires ContinuityRuns.Sound(w.tables) && OutputsOutside(w.tables) && Allowed(m)
    ensures ContinuityRuns.Sound(Moved(w, m).tables) && OutputsOutside(Moved(w, m).tables)
  {
    if m.Record? || m.CleanUp? {
      assert Moved(w, m).tables == ContinuityRuns.After(w.tables, StepOf(w, m));
      ContinuityRuns.StepKeepsSound(w.tables, StepOf(w, m));
      StepKeepsOutside(w.tables, StepOf(w, m));
    }
  }

  lemma {:induction false} RunsStayKept(w: World, moves: seq<Move>, id: string, artifact: Artifact, file: File)
    requires ContinuityRuns.Sound(w.tables) && OutputsOutside(w.tables) && Kept(w, id, artifact, file)
    requires AllAllowed(moves) && forall m :: m in moves ==> !Launches(m, id)
    ensures Kept(MovedAll(w, moves), id, artifact, file)
    decreases moves
  {
    if moves != [] {
      FirstIsIn(moves);
      MoveStaysKept(w, moves[0], id, artifact, file);
      MoveKeepsRest(w, moves[0]);
      RunsStayKept(Moved(w, moves[0]), moves[1..], id, artifact, file);
    }
  }

  // ----- Main results -----

  lemma CleanedIsKept(w: World, id: string, o: Outside)
    requires Safe(w) && id in w.tables.items && w.tables.items[id].generation > 0
    requires OwnedOutput(w.tables.items[id]).Some? && Cleaned(w.tables, w.files, id, o).verdict.Removed?
    ensures var owned := OwnedOutput(w.tables.items[id]).value.0;
      && owned in w.files && w.files[owned].Regular?
      && Kept(Moved(w, CleanUp(id, o)), id, CopyRecord(w.files, id, owned),
              Regular(o.copyIdentity, OutputReads.CopyOf(w.files[owned].content)))
  {
    RemovedOnlyWhenKept(w.tables, w.files, id, o);
  }

  lemma {:induction false} ResultsStandInRuns(w: World, moves: seq<Move>)
    requires ContinuityRuns.Sound(w.tables) && OutputsOutside(w.tables) && AllAllowed(moves)
    ensures ContinuityRuns.ResultsStand(w.tables, MovedAll(w, moves).tables)
    decreases moves
  {
    if moves != [] {
      FirstIsIn(moves);
      var next := Moved(w, moves[0]);
      MoveKeepsRest(w, moves[0]);
      ResultsStandInRuns(next, moves[1..]);
      if moves[0].Record? || moves[0].CleanUp? {
        assert next.tables == ContinuityRuns.After(w.tables, StepOf(w, moves[0]));
        ContinuityRuns.StepStands(w.tables, StepOf(w, moves[0]));
        ContinuityRuns.ResultsStandOn(w.tables, next.tables, MovedAll(next, moves[1..]).tables);
      }
    }
  }

  /**
   At any point of any run in which nothing is launched again under a copied name: a carried
   item that is removed has its result and a copy of the output it owned, and what a read
   answered before is kept at any later point, until the name is launched again.
   */
  lemma ReadsAreKeptForGood(w: World, moves: seq<Move>, id: string, o: Outside, further: seq<Move>, offset: int,
                            maxBytes: int)
    requires Safe(w) && AllAllowed(moves) && NeverLaunchesCopied(w, moves)
    requires AllAllowed(further) && forall m :: m in further ==> !Launches(m, id)
    requires var v := MovedAll(w, moves);
             && id in v.tables.items && v.tables.items[id].generation > 0
             && Cleaned(v.tables, v.files, id, o).verdict.Removed?
             && OutputRead(v.tables, v.files, id, offset, maxBytes).Answer?
    ensures var v := MovedAll(w, moves);
            var last := MovedAll(Moved(v, CleanUp(id, o)), further);
      && id in v.tables.results && id in last.tables.results
      && last.tables.results[id].(artifact := None, delivered := false)
          == v.tables.results[id].(artifact := None, delivered := false)
      && ReadKept(OutputRead(v.tables, v.files, id, offset, maxBytes),
                  OutputRead(last.tables, last.files, id, offset, maxBytes), offset, maxBytes)
  {
    var v := MovedAll(w, moves);
    RunsStaySafe(w, moves);
    RemovedOnlyWhenKept(v.tables, v.files, id, o);
    CleanupPreservesReads(v.tables, v.files, id, o, offset, maxBytes);
    CleanedIsKept(v, id, o);
    var owned := OwnedOutput(v.tables.items[id]).value.0;
    var next := Moved(v, CleanUp(id, o));
    MoveKeepsRest(v, CleanUp(id, o));
    RunsStayKept(next, further, id, CopyRecord(v.files, id, owned),
                 Regular(o.copyIdentity, OutputReads.CopyOf(v.files[owned].content)));
    ResultsStandInRuns(next, further);
    assert ContinuityRuns.ResultStands(next.tables.results[id], MovedAll(next, further).tables.results[id]);
  }

  // ----- An output that is lost -----

  const OUT := Elsewhere("out")
  const OUT_IDENTITY := PosixOutput(OUT, "1", "2")
  const SHELL := Work(BackgroundShell, "", None, None, None)
  const NOTHING := World(ContinuityRuns.NOTHING_RECORDED, map[])

  lemma {:induction false} MovesCompose(w: World, a: seq<Move>, b: seq<Move>)
    ensures MovedAll(w, a + b) == MovedAll(MovedAll(w, a), b)
    decreases a
  {
    if a == [] {
      assert a + b == b;
    } else {
      assert (a + b)[1..] == a[1..] + b;
      MovesCompose(Moved(w, a[0]), a[1..], b);
    }
  }

  lemma OneMove(w: World, m: Move)
    ensures MovedAll(w, [m]) == Moved(w, m)
  {
    assert [m][1..] == [];
  }

  function RecordOf(a: ContinuityRuns.Action): Move {
    Record(ContinuityRuns.Step(a, 0))
  }

  /** A background command is launched and adopted with its output file. */
  function Adopting(id: string): seq<Move> {
    [RecordOf(ContinuityRuns.Launch(id, SHELL, None))]
    + [RecordOf(ContinuityRuns.Qualify(id, Adopt, {Output}, OUT_IDENTITY))]
    + [RecordOf(ContinuityRuns.Snapshot("session"))]
  }

  /** It is carried, writes its output and ends. */
  function ShellLife(id: string, content: seq<OutputReads.Byte>): seq<Move> {
    Adopting(id) + [Write(OUT, Regular(OUT_IDENTITY, content))] + [RecordOf(ContinuityRuns.End(id, Completed, ""))]
  }

  ghost predicate IsAdopted(w: World, id: string) {
    && w.tables.items.Keys == {id}
    && var i := w.tables.items[id];
    && i.generation > 0 && i.identity == Some(OUT_IDENTITY) && i.relaunch.None? && i.operations == {Output}
  }

  lemma ShellIsQualified(t: Tables, id: string)
    requires ContinuityRuns.Sound(t) && t.items == map[]
    ensures var u := Qualified(ContinuityStore.Launched(t, id, SHELL, None, 0), id, Adopt, {Output}, OUT_IDENTITY, 0);
      && ContinuityRuns.Sound(u) && Snapshots.MaySnapshot(u) && u.results == t.results && u.items.Keys == {id}
      && var i := u.items[id];
      && i.state.Active? && i.identity == Some(OUT_IDENTITY) && i.relaunch.None? && i.operations == {Output}
  {
    var launch := ContinuityRuns.Step(ContinuityRuns.Launch(id, SHELL, None), 0);
    var qualify := ContinuityRuns.Step(ContinuityRuns.Qualify(id, Adopt, {Output}, OUT_IDENTITY), 0);
    ContinuityRuns.StepKeepsSound(t, launch);
    ContinuityRuns.StepKeepsSound(ContinuityRuns.After(t, launch), qualify);
  }

  lemma ShellIsAdopted(w: World, id: string)
    requires ContinuityRuns.Sound(w.tables) && w.tables.items == map[]
    ensures var u := MovedAll(w, Adopting(id));
      u.files == w.files && u.tables.results == w.tables.results && IsAdopted(u, id) && u.tables.items[id].state.Active?
  {
    var launch := RecordOf(ContinuityRuns.Launch(id, SHELL, None));
    var qualify := RecordOf(ContinuityRuns.Qualify(id, Adopt, {Output}, OUT_IDENTITY));
    var snapshot := RecordOf(ContinuityRuns.Snapshot("session"));
    MovesCompose(w, [launch] + [qualify], [snapshot]);
    MovesCompose(w, [launch], [qualify]);
    OneMove(w, launch);
    OneMove(Moved(w, launch), qualify);
    var u := Moved(Moved(w, launch), qualify);
    OneMove(u, snapshot);
    ShellIsQualified(w.tables, id);
    ContinuityRuns.SnapshotStamps(u.tables, "session", 0);
  }

  lemma ShellLived(w: World, id: string, content: seq<OutputReads.Byte>)
    requires ContinuityRuns.Sound(w.tables) && w.tables.items == map[]
    ensures var u := MovedAll(w, ShellLife(id, content));
      && u.files == w.files[OUT := Regular(OUT_IDENTITY, content)] && IsAdopted(u, id)
      && u.tables.items[id].state.Terminal? && id in u.tables.results
      && (id in w.tables.results ==> u.tables.results == w.tables.results)
      && (id !in w.tables.results ==> !HasOwnedCopy(u.tables, id))
  {
    var write, end := Write(OUT, Regular(OUT_IDENTITY, content)), RecordOf(ContinuityRuns.End(id, Completed, ""));
    ShellIsAdopted(w, id);
    var u := MovedAll(w, Adopting(id));
    MovesCompose(w, Adopting(id) + [write], [end]);
    MovesCompose(w, Adopting(id), [write]);
    OneMove(u, write);
    OneMove(Moved(u, write), end);
  }

  lemma {:induction false} ShellSound(w: World, moves: seq<Move>)
    requires ContinuityRuns.Sound(w.tables)
    ensures ContinuityRuns.Sound(MovedAll(w, moves).tables)
    decreases moves
  {
    if moves != [] {
      if moves[0].Record? || moves[0].CleanUp? {
        assert Moved(w, moves[0]).tables == ContinuityRuns.After(w.tables, StepOf(w, moves[0]));
        ContinuityRuns.StepKeepsSound(w.tables, StepOf(w, moves[0]));
      }
      ShellSound(Moved(w, moves[0]), moves[1..]);
    }
  }

  /** The first life is cleaned up: its output was copied. */
  lemma FirstLifeIsCopied(id: string, first: seq<OutputReads.Byte>, o: Outside)
    requires o.copyWorks && o.updateWorks
    ensures var b := MovedAll(NOTHING, ShellLife(id, first) + [CleanUp(id, o)]);
      && ContinuityRuns.Sound(b.tables) && b.tables.items == map[] && HasOwnedCopy(b.tables, id)
      && b.tables.results[id].artifact.value.path == CopyOf(id)
      && CopyOf(id) in b.files && b.files[CopyOf(id)] == Regular(o.copyIdentity, OutputReads.CopyOf(first))
  {
    var a := MovedAll(NOTHING, ShellLife(id, first));
    ShellLived(NOTHING, id, first);
    MovesCompose(NOTHING, ShellLife(id, first), [CleanUp(id, o)]);
    OneMove(a, CleanUp(id, o));
    ShellSound(NOTHING, ShellLife(id, first) + [CleanUp(id, o)]);
    RemovedOnlyWhenKept(a.tables, a.files, id, o);
  }

  /** A second life is cleaned up: the copy of the first stays and is what reads answer. */
  lemma SecondLifeIsNotCopied(b: World, id: string, second: seq<OutputReads.Byte>, o: Outside, offset: int,
                              maxBytes: int)
    requires ContinuityRuns.Sound(b.tables) && b.tables.items == map[] && HasOwnedCopy(b.tables, id)
             && ValidRange(maxBytes)
    requires b.tables.results[id].artifact.value.path == CopyOf(id) && CopyOf(id) in b.files
             && b.files[CopyOf(id)].Regular?
    ensures var w := MovedAll(b, ShellLife(id, second));
            var v := Moved(w, CleanUp(id, o));
      && OutputRead(w.tables, w.files, id, offset, maxBytes) == Answer(OutputReads.ReadOf(second, offset, maxBytes))
      && id !in v.tables.items
      && OutputRead(v.tables, v.files, id, offset, maxBytes)
         == Answer(OutputReads.ReadOf(b.files[CopyOf(id)].content, offset, maxBytes))
  {
    ShellLived(b, id, second);
    var w := MovedAll(b, ShellLife(id, second));
    OldCopyIsReadAfter(w.tables, w.files, id, o, offset, maxBytes);
  }

  /**
   A command lives twice under one name, cleaned up in between: the second time its output is
   not copied, and once it is cleaned up reads answer the copy of the first.
   */
  lemma SecondOutputIsLost(id: string, first: seq<OutputReads.Byte>, second: seq<OutputReads.Byte>, o: Outside,
                           offset: int, maxBytes: int)
    requires o.copyWorks && o.updateWorks && ValidRange(maxBytes)
    ensures var w := MovedAll(NOTHING, ShellLife(id, first) + [CleanUp(id, o)] + ShellLife(id, second));
            var v := Moved(w, CleanUp(id, o));
      && OutputRead(w.tables, w.files, id, offset, maxBytes) == Answer(OutputReads.ReadOf(second, offset, maxBytes))
      && id !in v.tables.items
      && OutputRead(v.tables, v.files, id, offset, maxBytes)
         == Answer(OutputReads.ReadOf(OutputReads.CopyOf(first), offset, maxBytes))
  {
    FirstLifeIsCopied(id, first, o);
    MovesCompose(NOTHING, ShellLife(id, first) + [CleanUp(id, o)], ShellLife(id, second));
    SecondLifeIsNotCopied(MovedAll(NOTHING, ShellLife(id, first) + [CleanUp(id, o)]), id, second, o, offset, maxBytes);
  }
}
