/**
 Removing finished work from the record: a carried item goes only once its result is durable
 and the output it owns was copied, and what could be read of its output can be read after.
 */
module Cleanup {
  import opened Basics
  import opened ContinuityStore
  import opened OutputReads

  datatype File = NotRegular | Regular(identity: Identity, content: seq<Byte>)

  datatype Verification = Missing | Unverifiable | Found(identity: Identity)

  type Files = map<Path, File>

  function VerifyOutputFile(files: Files, path: Path): Verification {
    if path !in files then Missing else if files[path].NotRegular? then Unverifiable else Found(files[path].identity)
  }

  // ----- Reading an item's output -----

  datatype ReadRefusal =
    | UnknownItem | Unsupported | RangeInvalid | IdentityMissing | IdentityUnverifiable | IdentityChanged

  datatype ReadAnswer = Answer(read: Read) | Refusal(reason: ReadRefusal)

  predicate ValidRange(maxBytes: int) {
    0 < maxBytes <= MAX_BYTES_CEILING
  }

  function OwnedCopyRead(t: Tables, files: Files, id: string, offset: int, maxBytes: int): ReadAnswer
    requires id in t.results
  {
    var artifact := t.results[id].artifact;
    if artifact.None? || !artifact.value.OwnedCopy? then Refusal(Unsupported)
    else if !ValidRange(maxBytes) then Refusal(RangeInvalid)
    else if artifact.value.path !in files || files[artifact.value.path].NotRegular? then Refusal(IdentityMissing)
    else Answer(ReadOf(files[artifact.value.path].content, offset, maxBytes))
  }

  predicate HasOwnedCopy(t: Tables, id: string) {
    id in t.results && t.results[id].artifact.Some? && t.results[id].artifact.value.OwnedCopy?
  }

  /**
   What a read of a carried item's output answers: from the live file while the item is tracked,
   then from the copy.
   */
  function OutputRead(t: Tables, files: Files, id: string, offset: int, maxBytes: int): ReadAnswer {
    if id !in t.items then
      if id !in t.results then Refusal(UnknownItem) else OwnedCopyRead(t, files, id, offset, maxBytes)
    else if Output !in t.items[id].operations then
      if HasOwnedCopy(t, id) then OwnedCopyRead(t, files, id, offset, maxBytes) else Refusal(Unsupported)
    else
      var owned := OwnedOutput(t.items[id]);
      if owned.None? then Refusal(IdentityMissing)
      else if !ValidRange(maxBytes) then Refusal(RangeInvalid)
      else
        match VerifyOutputFile(files, owned.value.0)
        case Missing => Refusal(IdentityMissing)
        case Unverifiable => Refusal(IdentityUnverifiable)
        case Found(current) =>
          if current != owned.value.1 then Refusal(IdentityChanged)
          else Answer(ReadOf(files[owned.value.0].content, offset, maxBytes))
  }

  /** The file a read goes to: the one a tracked item that offers output owns, else the owned copy. */
  function ReadFrom(t: Tables, id: string): Option<Path> {
    if id in t.items && Output in t.items[id].operations then
      if OwnedOutput(t.items[id]).Some? then Some(OwnedOutput(t.items[id]).value.0) else None
    else if HasOwnedCopy(t, id) then Some(t.results[id].artifact.value.path)
    else None
  }

  /** The item is still tracked, and reads go to its output. */
  predicate IsLive(t: Tables, id: string) {
    id in t.items && Output in t.items[id].operations
  }

  /** Every refusal has its reason, and what is neither unknown, closed, gone nor changed is answered. */
  lemma ReadRefusedIff(t: Tables, files: Files, id: string, offset: int, maxBytes: int)
    ensures var a, from := OutputRead(t, files, id, offset, maxBytes), ReadFrom(t, id);
            var open, inRange := from.Some?, 1 <= maxBytes <= 1024 * 1024;
            var found := if open then VerifyOutputFile(files, from.value) else Missing;
      && (a == Refusal(UnknownItem) <==> id !in t.items && id !in t.results)
      && (a == Refusal(Unsupported) <==> (id in t.items || id in t.results) && !IsLive(t, id) && !open)
      && (a == Refusal(RangeInvalid) <==> open && !inRange)
      && (a == Refusal(IdentityMissing) <==>
            || (IsLive(t, id) && !open)
            || (open && inRange && (found.Missing? || (!IsLive(t, id) && found.Unverifiable?))))
      && (a == Refusal(IdentityUnverifiable) <==> open && inRange && IsLive(t, id) && found.Unverifiable?)
      && (a == Refusal(IdentityChanged) <==>
            && open && inRange && IsLive(t, id) && found.Found?
            && found.identity != OwnedOutput(t.items[id]).value.1)
      && (a.Answer? ==> open && found.Found? && a.read == ReadOf(files[from.value].content, offset, maxBytes))
  {
  }

  method ReadItemOutput(store: Store, files: Files, id: string, offset: int, maxBytes: int) returns (a: ReadAnswer)
    ensures a == OutputRead(store.Now(), files, id, offset, maxBytes)
  {
    var path: Path;
    if id in store.items && Output in store.items[id].operations {
      var owned := OwnedOutput(store.items[id]);
      if owned.None? {
        return Refusal(IdentityMissing);
      }
      if !ValidRange(maxBytes) {
        return Refusal(RangeInvalid);
      }
      path := owned.value.0;
      match VerifyOutputFile(files, path)
      case Missing => return Refusal(IdentityMissing);
      case Unverifiable => return Refusal(IdentityUnverifiable);
      case Found(current) =>
        if current != owned.value.1 {
          return Refusal(IdentityChanged);
        }
    } else {
      if id !in store.results {
        return Refusal(if id in store.items then Unsupported else UnknownItem);
      }
      var artifact := store.results[id].artifact;
      if artifact.None? || !artifact.value.OwnedCopy? {
        return Refusal(Unsupported);
      }
      if !ValidRange(maxBytes) {
        return Refusal(RangeInvalid);
      }
      path := artifact.value.path;
      if path !in files || files[path].NotRegular? {
        return Refusal(IdentityMissing);
      }
    }
    var read := ReadBounded(files[path].content, offset, maxBytes);
    a := Answer(read);
  }

  // ----- Cleaning up -----

  datatype RetainReason = NoDurableResult | OutputMissing | OutputChanged | OutputUnverifiable | CopyFailed
                        | ResultUpdateFailed | RelaunchProcessLive

  datatype Verdict = Preserved | Retained(reason: RetainReason) | Removed

  /** What the outside does while one item is cleaned up. */
  datatype Outside = Outside(processGone: bool, copyWorks: bool, copyIdentity: Identity, updateWorks: bool,
                             unlinkWorks: bool)

  datatype Outcome = Outcome(tables: Tables, files: Files, verdict: Verdict)

  /** The output that must be copied before the item may go. */
  function ToCopy(t: Tables, id: string): Option<(Path, Identity)>
    requires id in t.items
  {
    if HasOwnedCopy(t, id) then None else OwnedOutput(t.items[id])
  }

  function CopyMade(files: Files, id: string, from: Path, identity: Identity): Files
    requires from in files && files[from].Regular?
  {
    files[CopyOf(id) := Regular(identity, OutputReads.CopyOf(files[from].content))]
  }

  function CopyRecord(files: Files, id: string, from: Path): Artifact
    requires from in files && files[from].Regular?
  {
    var content := files[from].content;
    OwnedCopy(CopyOf(id), |OutputReads.CopyOf(content)|, COPY_MAX_BYTES < |content|)
  }

  function CleanedAfterCopy(t: Tables, files: Files, id: string, owned: (Path, Identity), o: Outside): Outcome
    requires id in t.items && id in t.results
  {
    match VerifyOutputFile(files, owned.0)
    case Missing => Outcome(t, files, Retained(OutputMissing))
    case Unverifiable => Outcome(t, files, Retained(OutputUnverifiable))
    case Found(current) =>
      if current != owned.1 then Outcome(t, files, Retained(OutputChanged))
      else if !o.copyWorks then Outcome(t, files, Retained(CopyFailed))
      else
        var copied := CopyMade(files, id, owned.0, o.copyIdentity);
        if !o.updateWorks
        then Outcome(t, if o.unlinkWorks then copied - {CopyOf(id)} else copied, Retained(ResultUpdateFailed))
        else
          var isFence := t.items[id].relaunch.Some? && owned.0 == t.items[id].relaunch.value.outputPath;
          Outcome(Deleted(Copied(t, id, CopyRecord(files, id, owned.0)), id),
                  if isFence && o.unlinkWorks then copied - {owned.0} else copied, Removed)
  }

  /** What cleaning up one item makes of the record and the files. */
  function Cleaned(t: Tables, files: Files, id: string, o: Outside): Outcome
    requires id in t.items
  {
    var i := t.items[id];
    if !i.state.Terminal? then Outcome(t, files, Preserved)
    else if i.relaunch.Some? && i.relaunch.value.process.Some? && !o.processGone
    then Outcome(t, files, Retained(RelaunchProcessLive))
    else if i.generation == 0 then Outcome(Deleted(t, id), files, Removed)
    else if id !in t.results then Outcome(t, files, Retained(NoDurableResult))
    else if ToCopy(t, id).None? then Outcome(Deleted(t, id), files, Removed)
    else CleanedAfterCopy(t, files, id, ToCopy(t, id).value, o)
  }

  class Disk {
    var files: Files

    constructor (files: Files)
      ensures this.files == files
    {
      this.files := files;
    }

    /** Copies the file's beginning under the copy's own name; a failure leaves no copy behind. */
    method Copy(id: string, from: Path, works: bool, identity: Identity) returns (made: Option<Artifact>)
      requires from in files && files[from].Regular?
      modifies this
      ensures made.Some? <==> works
      ensures works ==>
                files == CopyMade(old(files), id, from, identity) && made == Some(CopyRecord(old(files), id, from))
      ensures !works ==> files == old(files)
    {
      if !works {
        return None;
      }
      var target, copied, truncated := CopyBounded(files[from].content, COPY_MAX_BYTES);
      files := files[CopyOf(id) := Regular(identity, target)];
      made := Some(OwnedCopy(CopyOf(id), copied, truncated));
    }

    method Unlink(path: Path, works: bool)
      modifies this
      ensures files == if works then old(files) - {path} else old(files)
    {
      if works {
        files := files - {path};
      }
    }
  }

  /** Copies the owned output and points the result at the copy; the reason says why that failed. */
  method KeepOutput(store: Store, disk: Disk, id: string, owned: (Path, Identity), o: Outside)
    returns (failed: Option<RetainReason>)
    requires store.Valid() && id in store.items && store.items[id].state.Terminal? && id in store.results
    modifies store`results, disk
    ensures store.Valid()
    ensures var c := CleanedAfterCopy(old(store.Now()), old(disk.files), id, owned, o);
              && disk.files == c.files && c.tables == (if failed.None? then Deleted(store.Now(), id) else store.Now())
              && c.verdict == if failed.None? then Removed else Retained(failed.value)
  {
    match VerifyOutputFile(disk.files, owned.0)
    case Missing => return Some(OutputMissing);
    case Unverifiable => return Some(OutputUnverifiable);
    case Found(current) =>
      if current != owned.1 {
        return Some(OutputChanged);
      }
    var made := disk.Copy(id, owned.0, o.copyWorks, o.copyIdentity);
    if made.None? {
      return Some(CopyFailed);
    }
    var updated := false;
    if o.updateWorks {
      updated := store.SetResultArtifact(id, made.value);
    }
    if !updated {
      disk.Unlink(CopyOf(id), o.unlinkWorks);
      return Some(ResultUpdateFailed);
    }
    var relaunch := store.items[id].relaunch;
    if relaunch.Some? && owned.0 == relaunch.value.outputPath {
      disk.Unlink(owned.0, o.unlinkWorks);
    }
    failed := None;
  }

  method CleanItem(store: Store, disk: Disk, id: string, o: Outside) returns (v: Verdict)
    requires store.Valid() && id in store.items
    modifies store`items, store`results, disk
    ensures store.Valid() && Outcome(store.Now(), disk.files, v) == Cleaned(old(store.Now()), old(disk.files), id, o)
  {
    var item := store.items[id];
    if !item.state.Terminal? {
      return Preserved;
    }
    if item.relaunch.Some? && item.relaunch.value.process.Some? && !o.processGone {
      return Retained(RelaunchProcessLive);
    }
    if item.generation > 0 {
      if id !in store.results {
        return Retained(NoDurableResult);
      }
      var artifact := store.results[id].artifact;
      var owned := if artifact.Some? && artifact.value.OwnedCopy? then None else OwnedOutput(item);
      if owned.Some? {
        var failed := KeepOutput(store, disk, id, owned.value, o);
        if failed.Some? {
          return Retained(failed.value);
        }
      }
    }
    var removed := store.DeleteTerminalItem(id);
    v := Removed;
  }

  /** The items still to be looked at are as they were listed. */
  ghost predicate StillListed(t: Tables, before: Tables, ids: seq<string>) {
    NoDup(ids) && forall id :: id in ids ==> id in t.items && id in before.items && t.items[id] == before.items[id]
  }

  lemma OthersStay(t: Tables, files: Files, ids: seq<string>, o: Outside)
    requires ids != [] && NoDup(ids) && forall id :: id in ids ==> id in t.items
    ensures StillListed(Cleaned(t, files, ids[0], o).tables, t, ids[1..])
  {
    forall id | id in ids[1..]
      ensures id in t.items && id in Cleaned(t, files, ids[0], o).tables.items
              && Cleaned(t, files, ids[0], o).tables.items[id] == t.items[id]
    {
      assert id in ids && id != ids[0];
    }
  }

  /** Cleaning up the listed items one after the other. */
  function CleanedAll(t: Tables, files: Files, ids: seq<string>, outside: string -> Outside): Outcome
    requires NoDup(ids) && forall id :: id in ids ==> id in t.items
    decreases ids
  {
    if ids == [] then Outcome(t, files, Removed)
    else
      var c := Cleaned(t, files, ids[0], outside(ids[0]));
      OthersStay(t, files, ids, outside(ids[0]));
      CleanedAll(c.tables, c.files, ids[1..], outside)
  }

  method CleanNext(store: Store, disk: Disk, todo: seq<string>, outside: string -> Outside, ghost before: Tables)
    returns (v: Verdict)
    requires store.Valid() && todo != [] && StillListed(store.Now(), before, todo)
    modifies store`items, store`results, disk
    ensures store.Valid() && StillListed(store.Now(), before, todo[1..])
    ensures CleanedAll(store.Now(), disk.files, todo[1..], outside)
            == CleanedAll(old(store.Now()), old(disk.files), todo, outside)
    ensures todo[0] in before.items && (v.Preserved? <==> !before.items[todo[0]].state.Terminal?)
  {
    FirstIsIn(todo);
    OthersStay(store.Now(), disk.files, todo, outside(todo[0]));
    ghost var rest := todo[1..];
    assert forall id :: id in rest ==> id in todo;
    v := CleanItem(store, disk, todo[0], outside(todo[0]));
  }

  ghost predicate Judged(verdicts: map<string, Verdict>, before: Tables) {
    forall id :: id in verdicts ==>
      id in before.items && (verdicts[id].Preserved? <==> !before.items[id].state.Terminal?)
  }

  /** Cleans up a thread's items in the order they are listed in, then its generations when nothing is left. */
  method CleanupThread(store: Store, disk: Disk, listed: seq<string>, outside: string -> Outside)
    returns (verdicts: map<string, Verdict>)
    requires store.Valid() && NoDup(listed) && forall id :: id in listed <==> id in store.items
    modifies store, disk
    ensures store.Valid() && verdicts.Keys == old(store.items).Keys
    ensures var c := CleanedAll(old(store.Now()), old(disk.files), listed, outside);
              && disk.files == c.files
              && store.Now() == if Preserved in verdicts.Values then c.tables else WithoutObsolete(c.tables)
    ensures Judged(verdicts, old(store.Now()))
  {
    verdicts := map[];
    ghost var t, files := store.Now(), disk.files;
    var todo := listed;
    while todo != []
      invariant store.Valid() && StillListed(store.Now(), t, todo)
      invariant CleanedAll(store.Now(), disk.files, todo, outside) == CleanedAll(t, files, listed, outside)
      invariant Judged(verdicts, t) && forall id :: id in listed <==> id in todo || id in verdicts
    {
      var verdict := CleanNext(store, disk, todo, outside, t);
      assert forall id :: id in todo <==> id == todo[0] || id in todo[1..];
      verdicts, todo := verdicts[todo[0] := verdict], todo[1..];
    }
    if Preserved !in verdicts.Values {
      var removed := store.RemoveObsoleteGenerations();
    }
  }

  // ----- What cleaning up keeps -----

  ghost predicate HoldsCopy(files: Files, id: string, content: seq<Byte>) {
    CopyOf(id) in files && files[CopyOf(id)].Regular? && files[CopyOf(id)].content == OutputReads.CopyOf(content)
  }

  /**
   A carried item goes only when its outcome is durable and what it owns was copied. One whose
   launch already had an owned copy goes without another.
   */
  lemma RemovedOnlyWhenKept(t: Tables, files: Files, id: string, o: Outside)
    requires id in t.items && t.items[id].generation > 0
    ensures var c := Cleaned(t, files, id, o);
            c.verdict.Removed? ==>
              && t.items[id].state.Terminal? && id !in c.tables.items && id in t.results && id in c.tables.results
              && c.tables.results[id].(artifact := None) == t.results[id].(artifact := None)
              && (OwnedOutput(t.items[id]).Some? && !HasOwnedCopy(t, id) ==>
                    var owned := OwnedOutput(t.items[id]).value;
                    && owned.0 in files && files[owned.0].Regular? && files[owned.0].identity == owned.1
                    && c.tables.results[id].artifact == Some(CopyRecord(files, id, owned.0))
                    && (CopyOf(id) != owned.0 ==> HoldsCopy(c.files, id, files[owned.0].content)))
  {
  }

  /** The relaunched process of the item may still write. */
  predicate MayStillRun(i: Item, o: Outside) {
    i.relaunch.Some? && i.relaunch.value.process.Some? && !o.processGone
  }

  /** The item's own output is to be copied, and is the file the record knows. */
  predicate OutputIsTheOne(i: Item, files: Files) {
    OwnedOutput(i).Some? && VerifyOutputFile(files, OwnedOutput(i).value.0) == Found(OwnedOutput(i).value.1)
  }

  /** Nothing keeps a finished carried item's output from being copied, or it needs no copy. */
  predicate OutputCanGo(t: Tables, files: Files, id: string, o: Outside)
    requires id in t.items
  {
    || HasOwnedCopy(t, id) || OwnedOutput(t.items[id]).None?
    || (OutputIsTheOne(t.items[id], files) && o.copyWorks && o.updateWorks)
  }

  /**
   When an item goes, and for each reason when it is retained for that. A finished item goes exactly
   when its process is gone and, if it was carried, its result is there and its output can go.
   */
  lemma VerdictIff(t: Tables, files: Files, id: string, o: Outside)
    requires id in t.items
    ensures var i, v := t.items[id], Cleaned(t, files, id, o).verdict;
      && (v == Preserved <==> !i.state.Terminal?)
      && (v == Retained(RelaunchProcessLive) <==> i.state.Terminal? && MayStillRun(i, o))
      && (v == Removed
          <==> && i.state.Terminal? && !MayStillRun(i, o)
               && (i.generation > 0 ==> id in t.results && OutputCanGo(t, files, id, o)))
      && (v == Retained(NoDurableResult)
          <==> i.state.Terminal? && !MayStillRun(i, o) && i.generation > 0 && id !in t.results)
      && (v.Retained? && v.reason !in {RelaunchProcessLive, NoDurableResult} ==>
            && OwnedOutput(i).Some? && !HasOwnedCopy(t, id)
            && var found := VerifyOutputFile(files, OwnedOutput(i).value.0);
            && (v.reason.OutputMissing? <==> OwnedOutput(i).value.0 !in files)
            && (v.reason.OutputUnverifiable? <==> found.Unverifiable?)
            && (v.reason.OutputChanged? <==> found.Found? && found.identity != OwnedOutput(i).value.1)
            && (v.reason.CopyFailed? <==> OutputIsTheOne(i, files) && !o.copyWorks)
            && (v.reason.ResultUpdateFailed? <==> OutputIsTheOne(i, files) && o.copyWorks && !o.updateWorks))
  {
  }

  /**
   What cleaning up an item does to files: it makes or renews the item's own copy, takes a failed
   one away again, and removes a relaunch's output once it was copied. No other file is touched.
   */
  lemma FilesAfter(t: Tables, files: Files, id: string, o: Outside, path: Path)
    requires id in t.items && path != CopyOf(id)
    ensures var i, c := t.items[id], Cleaned(t, files, id, o);
      && (path in c.files ==> path in files && c.files[path] == files[path])
      && (path in files && path !in c.files
          <==> && path in files && c.verdict.Removed? && i.generation > 0 && !HasOwnedCopy(t, id)
               && i.relaunch.Some? && path == i.relaunch.value.outputPath && o.unlinkWorks)
      && (c.verdict.Retained? && (c.verdict.reason != ResultUpdateFailed || (o.unlinkWorks && CopyOf(id) !in files)) ==>
            c.files == files)
  {
    if t.items[id].relaunch.Some? {
      assert OwnedOutput(t.items[id])
             == Some((t.items[id].relaunch.value.outputPath, t.items[id].relaunch.value.output));
    }
  }

  /** A kept item is untouched, and so is every other item and every other result. */
  lemma CleaningIsLocal(t: Tables, files: Files, id: string, o: Outside)
    requires id in t.items
    ensures var c := Cleaned(t, files, id, o);
      && c.tables.generations == t.generations
      && c.tables.items == (if c.verdict.Removed? then t.items - {id} else t.items)
      && c.tables.results - {id} == t.results - {id} && c.tables.results.Keys == t.results.Keys
      && (!c.verdict.Removed? ==> c.tables == t)
  {
  }

  /**
   A later read keeps what a read answered: it is the same for an output within the copy's
   cap, and for a longer one it has the same bytes exactly when the range is inside the cap.
   */
  ghost predicate ReadKept(before: ReadAnswer, after: ReadAnswer, offset: int, maxBytes: int)
    requires before.Answer?
  {
    && after.Answer?
    && (before.read.total <= COPY_MAX_BYTES ==> after == before)
    && (before.read.total > COPY_MAX_BYTES ==>
          (after.read.offset == before.read.offset && after.read.bytes == before.read.bytes
           <==> InsideCopy(before.read.total, offset, maxBytes)))
  }

  /** What a read of a carried item's output answered before its first cleanup is kept after it. */
  lemma CleanupPreservesReads(t: Tables, files: Files, id: string, o: Outside, offset: int, maxBytes: int)
    requires id in t.items && t.items[id].generation > 0 && Cleaned(t, files, id, o).verdict.Removed?
    requires OutputRead(t, files, id, offset, maxBytes).Answer?
    requires !HasOwnedCopy(t, id) && OwnedOutput(t.items[id]).value.0 != CopyOf(id)
    ensures var c := Cleaned(t, files, id, o);
            ReadKept(OutputRead(t, files, id, offset, maxBytes), OutputRead(c.tables, c.files, id, offset, maxBytes),
                     offset, maxBytes)
  {
    var owned := OwnedOutput(t.items[id]).value;
    var content := files[owned.0].content;
    RemovedOnlyWhenKept(t, files, id, o);
    if |content| <= COPY_MAX_BYTES {
      WholeCopyReadsAlike(content, offset, maxBytes);
    } else {
      CutCopyReadsAlikeInside(content, offset, maxBytes);
    }
  }

  /**
   An item whose result already holds an owned copy goes without touching a file, and reads answer
   that copy from then on.
   */
  lemma OldCopyIsReadAfter(t: Tables, files: Files, id: string, o: Outside, offset: int, maxBytes: int)
    requires id in t.items && t.items[id].generation > 0 && Cleaned(t, files, id, o).verdict.Removed?
    requires HasOwnedCopy(t, id)
    ensures var c := Cleaned(t, files, id, o);
      && c.files == files && c.tables.results == t.results
      && OutputRead(c.tables, c.files, id, offset, maxBytes) == OwnedCopyRead(t, files, id, offset, maxBytes)
  {
  }

  /** A finished carried item that offers its output, which is a file of its own. */
  ghost predicate OffersOutput(t: Tables, id: string) {
    && id in t.items && t.items[id].state.Terminal? && t.items[id].generation > 0 && id in t.results
    && Output in t.items[id].operations && OwnedOutput(t.items[id]).Some?
    && OwnedOutput(t.items[id]).value.0 != CopyOf(id)
    && (HasOwnedCopy(t, id) ==> t.results[id].artifact.value.path == CopyOf(id))
  }

  /** Cleaning the item up keeps every read that it answers, whatever the files hold. */
  ghost predicate KeepsEveryRead(t: Tables, id: string, o: Outside)
    requires id in t.items
  {
    forall files, offset, maxBytes ::
      OutputRead(t, files, id, offset, maxBytes).Answer? && Cleaned(t, files, id, o).verdict.Removed? ==>
        var c := Cleaned(t, files, id, o);
        ReadKept(OutputRead(t, files, id, offset, maxBytes), OutputRead(c.tables, c.files, id, offset, maxBytes),
                 offset, maxBytes)
  }

  /** Cleaning up keeps an item's reads exactly when its result does not hold an owned copy yet. */
  lemma ReadsAreKeptIffNotCopied(t: Tables, id: string, o: Outside)
    requires OffersOutput(t, id) && o.processGone
    ensures KeepsEveryRead(t, id, o) <==> !HasOwnedCopy(t, id)
  {
    if HasOwnedCopy(t, id) {
      var owned := OwnedOutput(t.items[id]).value;
      var files: Files := map[owned.0 := Regular(owned.1, [0]), CopyOf(id) := Regular(o.copyIdentity, [1])];
      OldCopyIsReadAfter(t, files, id, o, 0, 1);
      var c := Cleaned(t, files, id, o);
      var before, after := OutputRead(t, files, id, 0, 1), OutputRead(c.tables, c.files, id, 0, 1);
      assert before.read.bytes == [0] && after.read.bytes == [1];
      assert !ReadKept(before, after, 0, 1);
    } else {
      forall files, offset, maxBytes
        | OutputRead(t, files, id, offset, maxBytes).Answer? && Cleaned(t, files, id, o).verdict.Removed?
        ensures var c := Cleaned(t, files, id, o);
                ReadKept(OutputRead(t, files, id, offset, maxBytes),
                         OutputRead(c.tables, c.files, id, offset, maxBytes),
                         offset, maxBytes)
      {
        CleanupPreservesReads(t, files, id, o, offset, maxBytes);
      }
    }
  }

  // ----- A cleanup that crashes -----

  datatype CleanEffect = MakeCopy(id: string, file: File) | PointResult(id: string, copy: Artifact)
                       | RemoveFile(path: Path) | DeleteItem(id: string)

  datatype World = World(tables: Tables, files: Files)

  function AfterEffect(w: World, e: CleanEffect): World {
    match e
    case MakeCopy(id, file) => w.(files := w.files[CopyOf(id) := file])
    case PointResult(id, copy) => if copy.OwnedCopy? then w.(tables := Copied(w.tables, id, copy)) else w
    case RemoveFile(path) => w.(files := w.files - {path})
    case DeleteItem(id) => w.(tables := Deleted(w.tables, id))
  }

  function AfterEffects(w: World, effects: seq<CleanEffect>): World
    decreases effects
  {
    if effects == [] then w else AfterEffects(AfterEffect(w, effects[0]), effects[1..])
  }

  /** The item's output can be copied: it ended, was carried, has its result, and its file is the one it wrote. */
  ghost predicate CanBeCopied(t: Tables, files: Files, id: string, o: Outside) {
    && id in t.items && t.items[id].generation > 0 && ToCopy(t, id).Some? && o.copyWorks && o.updateWorks
    && Cleaned(t, files, id, o).verdict.Removed? && ToCopy(t, id).value.0 != CopyOf(id)
  }

  /** The effects of cleaning the item up, in the order in which they become durable. */
  ghost function CleanEffects(t: Tables, files: Files, id: string, o: Outside): seq<CleanEffect>
    requires CanBeCopied(t, files, id, o)
  {
    var owned := ToCopy(t, id).value.0;
    var isFence := t.items[id].relaunch.Some? && owned == t.items[id].relaunch.value.outputPath;
    [MakeCopy(id, Regular(o.copyIdentity, OutputReads.CopyOf(files[owned].content))),
     PointResult(id, CopyRecord(files, id, owned))]
    + (if isFence && o.unlinkWorks then [RemoveFile(owned)] else []) + [DeleteItem(id)]
  }

  lemma FirstEffects(w: World, effects: seq<CleanEffect>, n: nat)
    requires n < |effects|
    ensures AfterEffects(w, effects[..n + 1]) == AfterEffect(AfterEffects(w, effects[..n]), effects[n])
    decreases effects
  {
    if n == 0 {
      assert effects[..1][1..] == [] && effects[..1][0] == effects[0] && effects[..0] == [];
    } else {
      FirstEffects(AfterEffect(w, effects[0]), effects[1..], n - 1);
      assert effects[..n + 1][1..] == effects[1..][..n] && effects[..n][1..] == effects[1..][..n - 1];
    }
  }

  /** What the record and the files are when the process crashed after the first n effects. */
  lemma CrashStates(t: Tables, files: Files, id: string, o: Outside, n: nat)
    requires CanBeCopied(t, files, id, o) && n <= |CleanEffects(t, files, id, o)|
    ensures var effects, owned := CleanEffects(t, files, id, o), ToCopy(t, id).value.0;
            var u := AfterEffects(World(t, files), effects[..n]);
            var copied := CopyMade(files, id, owned, o.copyIdentity);
      && (n == 0 ==> u == World(t, files))
      && (n == 1 ==> u == World(t, copied))
      && (n == 2 ==> u == World(Copied(t, id, CopyRecord(files, id, owned)), copied))
      && (2 < n < |effects| ==> u == World(Copied(t, id, CopyRecord(files, id, owned)), copied - {owned}))
      && (n == |effects| ==> u == World(Cleaned(t, files, id, o).tables, Cleaned(t, files, id, o).files))
  {
    var effects := CleanEffects(t, files, id, o);
    var w := World(t, files);
    assert effects[..0] == [];
    FirstEffects(w, effects, 0);
    FirstEffects(w, effects, 1);
    FirstEffects(w, effects, 2);
    if |effects| == 4 {
      FirstEffects(w, effects, 3);
    }
  }

  /**
   A cleanup that crashed after any number of effects loses nothing: the item's result keeps its
   outcome; while the item is tracked a read answers as before, unless the output was removed
   already; and the next cleanup finishes it, after which reads answer as if nothing had crashed.
   */
  lemma CrashedCleanupFinishes(t: Tables, files: Files, id: string, o: Outside, n: nat, offset: int, maxBytes: int)
    requires CanBeCopied(t, files, id, o) && n <= |CleanEffects(t, files, id, o)|
    requires OutputRead(t, files, id, offset, maxBytes).Answer?
    ensures var u := AfterEffects(World(t, files), CleanEffects(t, files, id, o)[..n]);
            var before := OutputRead(t, files, id, offset, maxBytes);
            var crashed := OutputRead(u.tables, u.files, id, offset, maxBytes);
            var c := Cleaned(t, files, id, o);
            var whole := OutputRead(c.tables, c.files, id, offset, maxBytes);
      && id in u.tables.results && u.tables.results[id].(artifact := None) == t.results[id].(artifact := None)
      && if id in u.tables.items then
           && crashed == (if ToCopy(t, id).value.0 in u.files then before else Refusal(IdentityMissing))
           && (ToCopy(t, id).value.0 !in u.files <==> 2 < n)
           && var again := Cleaned(u.tables, u.files, id, o);
           && again.verdict.Removed?
           && OutputRead(again.tables, again.files, id, offset, maxBytes) == whole
         else crashed == whole
  {
    CrashStates(t, files, id, o, n);
  }
}
