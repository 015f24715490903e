/**
 The capture outbox of the mod: binds and captured entries leave in one ordered queue for a
 sidecar process that may crash, be replaced, refuse a request or lose a reply at any wait. A
 bind is a barrier, and an entry leaves the queue only once the sidecar has answered for it.
 */
module CaptureOutbox {
  import opened Basics

  const MAX_BATCH: nat := 200
  const MAX_FAILURES: nat := 5

  datatype Binding = Binding(sessionId: string, transcriptPath: string, source: string)

  datatype Item = BindItem(binding: Binding) | Entry(sessionId: string, uuid: string)

  /** How a request ends: answered, done by the sidecar with the reply lost, or failed. */
  datatype Outcome = Answered | ReplyLost | Failed(unbound: bool)

  /**
   What happens at one wait: items arrive, the sidecar may die and its exit be noticed, and then
   another request may start a replacement, which is given the last bind with this outcome.
   */
  datatype Wait = Wait(arrivals: seq<Item>, dies: bool, exitNoticed: bool, replacement: Option<Outcome>,
                       outcome: Outcome, namesThread: bool)

  /** An answered capture: the entries and what the sidecar was bound to when it took them. */
  datatype Batch = Batch(entries: seq<Item>, boundTo: Binding)

  /** A fork not yet bound to its thread keeps its source on a rebind. */
  function Rebinding(b: Binding, why: string): Binding {
    b.(source := if b.source == "fork" then "fork" else why)
  }

  function Binds(bindings: seq<Binding>): (items: seq<Item>)
    ensures |items| == |bindings|
  {
    seq(|bindings|, i requires 0 <= i < |bindings| => BindItem(bindings[i]))
  }

  /** The captured entries of a stretch of the queue. */
  function Entries(items: seq<Item>): seq<Item> {
    if items == [] then []
    else (if items[0].Entry? then [items[0]] else []) + Entries(items[1..])
  }

  /** The session of the last bind, starting from `before`. */
  function LastSession(items: seq<Item>, before: Option<string>): Option<string> {
    if items == [] then before
    else LastSession(items[1..], if items[0].BindItem? then Some(items[0].binding.sessionId) else before)
  }

  /** Every entry stands behind a bind, and the last such bind is for the entry's own session. */
  ghost predicate Attributed(items: seq<Item>, before: Option<string>) {
    items != [] ==>
      && (items[0].Entry? ==> before == Some(items[0].sessionId))
      && Attributed(items[1..], if items[0].BindItem? then Some(items[0].binding.sessionId) else before)
  }

  function Taken(batches: seq<Batch>): seq<Item> {
    if batches == [] then [] else batches[0].entries + Taken(batches[1..])
  }

  lemma {:induction false} ItemsConcat(a: seq<Item>, b: seq<Item>, before: Option<string>)
    ensures Entries(a + b) == Entries(a) + Entries(b)
    ensures LastSession(a + b, before) == LastSession(b, LastSession(a, before))
    ensures Attributed(a + b, before) <==> Attributed(a, before) && Attributed(b, LastSession(a, before))
    decreases a
  {
    if a == [] {
      assert a + b == b;
    } else {
      var next := if a[0].BindItem? then Some(a[0].binding.sessionId) else before;
      assert (a + b)[1..] == a[1..] + b;
      ItemsConcat(a[1..], b, next);
      ConcatAssociative(if a[0].Entry? then [a[0]] else [], Entries(a[1..]), Entries(b));
    }
  }

  lemma {:induction false} TakenExtends(batches: seq<Batch>, b: Batch)
    ensures Taken(batches + [b]) == Taken(batches) + b.entries
    decreases batches
  {
    if batches == [] {
      assert [b][1..] == [];
    } else {
      assert (batches + [b])[1..] == batches[1..] + [b];
      TakenExtends(batches[1..], b);
      ConcatAssociative(batches[0].entries, Taken(batches[1..]), b.entries);
    }
  }

  /** Everything that arrives at the waits to come. */
  function ArrivalsOf(waits: seq<Wait>): seq<Item> {
    if waits == [] then [] else waits[0].arrivals + ArrivalsOf(waits[1..])
  }

  /** Every wait answers, nothing dies and no one else starts a sidecar. */
  predicate AllCalm(waits: seq<Wait>) {
    forall w <- waits :: !w.dies && w.replacement.None? && w.outcome.Answered?
  }

  function SessionOf(b: Option<Binding>): Option<string> {
    if b.Some? then Some(b.value.sessionId) else None
  }

  /** Entries up to the next bind are all of the session in force. */
  lemma {:induction false} LeadingEntries(items: seq<Item>, batch: seq<Item>, before: Option<string>)
    requires Attributed(items, before) && batch <= items && forall e :: e in batch ==> e.Entry?
    ensures forall e :: e in batch ==> before == Some(e.sessionId)
    decreases batch
  {
    if batch != [] {
      FirstIsIn(batch);
      LeadingEntries(items[1..], batch[1..], before);
    }
  }

  /** A stretch without binds is all entries, and keeps the session. */
  lemma {:induction false} EntriesOnly(items: seq<Item>, session: string)
    requires forall e :: e in items ==> e.Entry? && e.sessionId == session
    ensures Entries(items) == items && LastSession(items, Some(session)) == Some(session)
    ensures Attributed(items, Some(session))
    decreases items
  {
    if items != [] {
      EntriesOnly(items[1..], session);
    }
  }

  /** The session of the last acknowledged bind, or of a bind that is next. */
  ghost predicate MayBind(gone: seq<Item>, ahead: seq<Item>, session: string) {
    || LastSession(gone, None) == Some(session)
    || (ahead != [] && ahead[0].BindItem? && ahead[0].binding.sessionId == session)
  }

  /** The batch was taken by a sidecar bound to the session of its entries. */
  ghost predicate TookItsOwn(b: Batch) {
    forall e :: e in b.entries ==> e.Entry? && e.sessionId == b.boundTo.sessionId
  }

  /** What was acknowledged: its entries are the acknowledged batches, each taken by a sidecar of their session. */
  ghost predicate Accounted(gone: seq<Item>, batches: seq<Batch>, taken: set<Batch>) {
    && Taken(batches) == Entries(gone)
    && Attributed(gone, None)
    && (forall b :: b in batches ==> b in taken) && (forall b :: b in taken ==> TookItsOwn(b))
  }

  lemma ReplayGone(outbox: seq<Item>, replays: seq<Binding>, ahead: seq<Item>)
    requires outbox == Binds(replays) + ahead && replays != []
    ensures outbox[1..] == Binds(replays[1..]) + ahead && forall r :: r in replays[1..] ==> r in replays
  {
  }

  /** Acknowledging a bind makes its session the last one. */
  lemma BindGone(gone: seq<Item>, b: Binding)
    ensures Entries(gone + [BindItem(b)]) == Entries(gone)
    ensures LastSession(gone + [BindItem(b)], None) == Some(b.sessionId)
    ensures Attributed(gone + [BindItem(b)], None) <==> Attributed(gone, None)
  {
    ItemsConcat(gone, [BindItem(b)], None);
    assert [BindItem(b)][1..] == [];
    assert Entries(gone) + [] == Entries(gone);
  }

  /** Acknowledging entries of the bound session keeps them attributed to it. */
  lemma BatchGone(gone: seq<Item>, batch: seq<Item>, session: string)
    requires LastSession(gone, None) == Some(session) && Attributed(gone, None)
    requires forall e :: e in batch ==> e.Entry? && e.sessionId == session
    ensures Entries(gone + batch) == Entries(gone) + batch
    ensures LastSession(gone + batch, None) == Some(session) && Attributed(gone + batch, None)
  {
    ItemsConcat(gone, batch, None);
    EntriesOnly(batch, session);
  }

  lemma BatchAcknowledged(gone: seq<Item>, ahead: seq<Item>, batches: seq<Batch>, taken: set<Batch>, batch: seq<Item>,
                          boundTo: Binding)
    requires Accounted(gone, batches, taken) && LastSession(gone, None) == Some(boundTo.sessionId)
    requires batch <= ahead && Batch(batch, boundTo) in taken
    ensures Accounted(gone + batch, batches + [Batch(batch, boundTo)], taken)
    ensures LastSession(gone + batch, None) == Some(boundTo.sessionId)
    ensures (gone + batch) + ahead[|batch|..] == gone + ahead
  {
    assert TookItsOwn(Batch(batch, boundTo));
    BatchGone(gone, batch, boundTo.sessionId);
    TakenExtends(batches, Batch(batch, boundTo));
    assert ahead == batch + ahead[|batch|..];
    ConcatAssociative(gone, batch, ahead[|batch|..]);
  }

  /** The sidecar process. */
  class Sidecar {
    var binding: Option<Binding>

    constructor ()
      ensures binding == None
    {
      binding := None;
    }

    /** POST /bind: the old binding goes first, and the new one is set only when its recording opened. */
    method Bind(b: Binding, opens: bool, unbinds: bool)
      modifies this
      ensures opens ==> binding == Some(b)
      ensures !opens ==> binding == if unbinds then None else old(binding)
    {
      if opens {
        binding := Some(b);
      } else if unbinds {
        binding := None;
      }
    }

    /** POST /capture: refused unless every entry is of the bound session. */
    method Capture(entries: seq<Item>, records: bool) returns (ok: bool)
      requires forall e :: e in entries ==> e.Entry?
      ensures ok <==>
                records && binding.Some? && forall e :: e in entries ==> e.sessionId == binding.value.sessionId
    {
      if binding.None? {
        return false;
      }
      for k := 0 to |entries|
        invariant forall j :: 0 <= j < k ==> entries[j].sessionId == binding.value.sessionId
      {
        if entries[k].sessionId != binding.value.sessionId {
          return false;
        }
      }
      ok := records;
    }
  }

  class Outbox {
    var outbox: seq<Item>
    var sidecar: Sidecar?       // the process, while it lives
    var isRunning: bool         // whether the mod still takes it for running
    var starts: nat
    var sentBinding: Option<Binding>
    var needsReplay: bool
    var failures: nat
    var isStopped: bool
    var waits: seq<Wait>        // what the outside will do at each wait
    ghost var gone: seq<Item>      // queued and acknowledged
    ghost var ahead: seq<Item>     // queued and not acknowledged
    ghost var replays: seq<Binding>
    ghost var batches: seq<Batch>  // acknowledged
    ghost var taken: set<Batch>    // taken by a sidecar, answered or not

    constructor (waits: seq<Wait>)
      ensures Valid() && gone == [] && ahead == [] && batches == [] && taken == {} && sidecar == null
    {
      outbox, sidecar, isRunning, starts, sentBinding := [], null, false, 0, None;
      needsReplay, failures, isStopped, this.waits := false, 0, false, waits;
      gone, ahead, replays, batches, taken := [], [], [], [], {};
    }

    /** A session the sidecar may be bound to. */
    ghost predicate Allowed(session: string)
      reads this
    {
      MayBind(gone, ahead, session)
    }

    /**
     The queue is replayed binds and then everything not yet acknowledged; what was
     acknowledged was taken, batch by batch, by a sidecar bound to the batch's session.
     */
    ghost predicate Valid()
      reads this, sidecar
    {
      && outbox == Binds(replays) + ahead
      && Accounted(gone, batches, taken)
      && (sentBinding.Some? ==> Allowed(sentBinding.value.sessionId))
      && (sidecar != null && sidecar.binding.Some? ==> Allowed(sidecar.binding.value.sessionId))
      && (forall b :: b in replays ==> sentBinding.Some? && b.sessionId == sentBinding.value.sessionId)
      && ((ahead != [] && ahead[0].BindItem?) || LastSession(gone, None) == SessionOf(sentBinding))
      && (starts == 0 ==> sidecar == null && !isRunning && sentBinding.None?)
    }

    /** The sidecar, if there is one, has the last acknowledged bind, or is known to lack it. */
    ghost predicate IsInStep()
      reads this, sidecar
    {
      sidecar == null || sentBinding.None? || needsReplay || SessionOf(sidecar.binding) == SessionOf(sentBinding)
    }

    /** No entry goes to a sidecar that lacks its bind: that goes first. */
    ghost predicate Knows()
      reads this, sidecar
    {
      IsInStep() || (outbox != [] && outbox[0].BindItem?)
    }

    /** All waits to come are calm, and the mod knows whether a sidecar lives. */
    ghost predicate Calm()
      reads this, sidecar
    {
      AllCalm(waits) && (isRunning <==> sidecar != null)
    }

    /** A sidecar runs, and `n` calm waits are left. */
    ghost predicate CalmFor(n: nat)
      reads this, sidecar
    {
      Calm() && isRunning && |waits| >= n
    }

    /** Waits that sending everything takes at most. */
    ghost function Need(): nat
      reads this
    {
      6 * (|outbox| + |ArrivalsOf(waits)|) + (if needsReplay then 8 else 0) + (if isRunning then 0 else 2)
    }

    /** What is queued and arrives can be sent: the waits suffice, and each entry follows its own bind. */
    ghost predicate CanSend()
      reads this, sidecar
    {
      Calm() && Need() <= |waits| && Attributed(gone + (ahead + ArrivalsOf(waits)), None)
    }

    /** What a wait leaves alone: the queue only grows at its end. */
    twostate predicate OnlyWaited()
      reads this
    {
      && old(outbox) <= outbox && old(ahead) <= ahead && |waits| <= old(|waits|)
      && outbox + ArrivalsOf(waits) == old(outbox + ArrivalsOf(waits))
      && ahead + ArrivalsOf(waits) == old(ahead + ArrivalsOf(waits))
      && gone == old(gone) && replays == old(replays) && batches == old(batches) && old(taken) <= taken
    }

    ghost predicate MayBeBound(session: string)
      reads this, sidecar
    {
      sidecar != null && sidecar.binding.Some? ==> sidecar.binding.value.sessionId == session
    }

    /** Items arrive behind everything queued. */
    method Enqueue(items: seq<Item>)
      requires Valid()
      modifies `outbox, `ahead
      ensures Valid() && outbox == old(outbox) + items && ahead == old(ahead) + items
      ensures old(Knows()) ==> Knows()
    {
      ConcatAssociative(Binds(replays), ahead, items);
      outbox := outbox + items;
      ahead := ahead + items;
    }

    /** A sidecar that another request started knows no session, or the last bind as a restart. */
    ghost predicate IsReplacement()
      reads this, sidecar
    {
      sidecar != null && sidecar.binding.Some? ==>
        sentBinding.Some? && sidecar.binding.value == Rebinding(sentBinding.value, "restart")
    }

    /** Processes are counted, and one that came meanwhile is taken for running. */
    twostate predicate Counted()
      reads this
    {
      && starts >= old(starts)
      && (sidecar != null && sidecar != old(sidecar) ==> starts > old(starts) && isRunning)
      && (sidecar != null && sidecar == old(sidecar) ==> starts == old(starts) && isRunning == old(isRunning))
    }

    /** Another request starts a replacement, which is given the last bind before anything else. */
    method Replace(outcome: Outcome)
      requires Valid()
      modifies `sidecar, `isRunning, `starts, `needsReplay
      ensures Valid() && fresh(sidecar) && IsReplacement() && IsInStep() && isRunning && starts == old(starts) + 1
    {
      var replacement := new Sidecar();
      if sentBinding.Some? {
        replacement.Bind(Rebinding(sentBinding.value, "restart"), !outcome.Failed?, outcome == Failed(true));
      }
      sidecar, isRunning, starts := replacement, true, starts + 1;
      needsReplay := sentBinding.Some? && !outcome.Answered?;
    }

    /** The next wait begins: what arrives at it is queued. */
    method NextWait() returns (w: Wait)
      requires Valid() && waits != []
      modifies `waits, `outbox, `ahead
      ensures Valid() && OnlyWaited() && w == old(waits)[0] && waits == old(waits)[1..]
      ensures old(Knows()) ==> Knows()
    {
      w := waits[0];
      waits := waits[1..];
      ConcatAssociative(outbox, w.arrivals, ArrivalsOf(waits));
      ConcatAssociative(ahead, w.arrivals, ArrivalsOf(waits));
      Enqueue(w.arrivals);
    }

    /** What the wait does to the sidecar. */
    method Befall(w: Wait)
      requires Valid()
      modifies `sidecar, `isRunning, `starts, `needsReplay
      ensures Valid() && (old(IsInStep()) ==> IsInStep()) && (old(Knows()) ==> Knows()) && Counted()
      ensures sidecar == null || sidecar == old(sidecar) || (fresh(sidecar) && IsReplacement() && IsInStep())
      ensures !w.dies && w.replacement.None? && (old(isRunning) <==> old(sidecar) != null) ==>
                sidecar == old(sidecar) && isRunning == old(isRunning) && needsReplay == old(needsReplay)
                && starts == old(starts)
    {
      if w.dies {
        sidecar := null;
      }
      if w.exitNoticed && sidecar == null {
        isRunning := false;
        if w.replacement.Some? {
          Replace(w.replacement.value);
        }
      }
    }

    /** One wait for the outside. */
    method Pause() returns (w: Option<Wait>)
      requires Valid()
      modifies `waits, `outbox, `ahead, `sidecar, `isRunning, `starts, `needsReplay
      ensures Valid() && OnlyWaited() && Counted() && (w.Some? ==> |waits| < old(|waits|))
      ensures sidecar == null || sidecar == old(sidecar) || (fresh(sidecar) && IsReplacement() && IsInStep())
      ensures (old(IsInStep()) ==> IsInStep()) && (old(Knows()) ==> Knows())
      ensures old(Calm()) ==>
                && Calm() && sidecar == old(sidecar) && isRunning == old(isRunning) && needsReplay == old(needsReplay)
                && starts == old(starts)
                && (old(waits) != [] ==> w.Some? && w.value.outcome.Answered? && |waits| == old(|waits|) - 1)
    {
      if waits == [] {
        return None;
      }
      assert waits[0] in waits;
      var now := NextWait();
      Befall(now);
      w := Some(now);
    }

    /** Spawns a process, which knows no session, and waits until it listens or has exited. */
    method Launch() returns (isListening: bool)
      requires Valid()
      modifies `waits, `outbox, `ahead, `sidecar, `isRunning, `starts, `needsReplay
      ensures Valid() && OnlyWaited() && (isListening ==> |waits| < old(|waits|))
      ensures sidecar == null || fresh(sidecar)
      ensures !isListening ==> IsInStep() && (isRunning <==> sidecar != null)
      ensures !isListening && sidecar != null ==> starts > old(starts) + 1
      ensures old(AllCalm(waits)) && old(waits) != [] ==>
                && isListening && Calm() && sidecar != null && |waits| == old(|waits|) - 1
                && starts == old(starts) + 1
    {
      var launched := new Sidecar();
      sidecar := launched;
      isRunning := true;
      starts := starts + 1;
      var w := Pause();
      isListening := w.Some? && w.value.outcome.Answered?;
      if !isListening && (sidecar == launched || sidecar == null) {
        sidecar, isRunning := null, false;
      }
    }

    /** Gives the last acknowledged bind to the sidecar again. */
    method ReplayBind() returns (isBound: bool)
      requires Valid()
      modifies this, sidecar
      ensures isStopped == old(isStopped) && failures == old(failures)
      ensures Valid() && OnlyWaited() && (sidecar == null || sidecar == old(sidecar) || fresh(sidecar))
      ensures sentBinding == old(sentBinding)
      ensures isBound && sentBinding.Some? ==>
                sidecar != null && sidecar.binding == Some(Rebinding(sentBinding.value, "restart"))
      ensures old(Calm()) && old(waits) != [] && old(sidecar) != null ==>
                isBound && Calm() && sidecar != null && |waits| >= old(|waits|) - 1
    {
      if sentBinding.None? {
        return true;
      }
      var w := Pause();
      if w.None? || sidecar == null {
        return false;
      }
      sidecar.Bind(Rebinding(sentBinding.value, "restart"), !w.value.outcome.Failed?, w.value.outcome == Failed(true));
      isBound := w.value.outcome.Answered?;
    }

    /** Makes sure a sidecar runs; a replacement is first given the last acknowledged bind again. */
    method StartSidecar() returns (ok: bool)
      requires Valid()
      modifies this, sidecar
      ensures isStopped == old(isStopped) && failures == old(failures)
      ensures Valid() && OnlyWaited() && (ok ==> |waits| < old(|waits|))
      ensures sidecar == null || sidecar == old(sidecar) || fresh(sidecar)
      ensures sentBinding == old(sentBinding)
      ensures old(IsInStep()) ==> IsInStep()
      ensures old(Knows()) ==> Knows()
      ensures old(Calm()) && old(|waits|) >= (if old(isRunning) then 1 else 2) ==>
                && ok && Calm() && isRunning && |waits| >= old(|waits|) - (if old(isRunning) then 1 else 2)
                && (if old(isRunning) then needsReplay == old(needsReplay) && sidecar == old(sidecar)
                                           && sidecar.binding == old(sidecar.binding)
                    else !needsReplay)
    {
      if isRunning {
        var w := Pause();
        return w.Some?;
      }
      var isReplacement := starts > 0;
      ok := Launch();
      if ok {
        var isBound := true;
        if isReplacement {
          isBound := ReplayBind();
        }
        needsReplay := !isBound;
      }
    }

    method PostBind(b: Binding) returns (ok: bool, namesThread: bool)
      requires Valid() && Allowed(b.sessionId) && outbox != [] && outbox[0].BindItem?
      modifies this, sidecar
      ensures isStopped == old(isStopped) && failures == old(failures)
      ensures Valid() && OnlyWaited() && (sidecar == null || sidecar == old(sidecar) || fresh(sidecar))
      ensures sentBinding == old(sentBinding) && (ok ==> sidecar != null && sidecar.binding == Some(b))
      ensures old(CalmFor(2)) ==>
                ok && CalmFor(0) && needsReplay == old(needsReplay) && |waits| >= old(|waits|) - 2
    {
      namesThread := false;
      ok := StartSidecar();
      if !ok {
        return;
      }
      var w := Pause();
      if w.None? || sidecar == null {
        return false, false;
      }
      sidecar.Bind(b, !w.value.outcome.Failed?, w.value.outcome == Failed(true));
      ok, namesThread := w.value.outcome.Answered?, w.value.namesThread;
    }

    /** Once its thread is open, a fork is a plain restart for later rebinds. */
    method Show(namesThread: bool) returns (ok: bool)
      requires Valid()
      modifies this
      ensures isStopped == old(isStopped) && failures == old(failures)
      ensures Valid() && OnlyWaited()
      ensures sidecar == null || sidecar == old(sidecar) || (fresh(sidecar) && IsReplacement() && IsInStep())
      ensures sentBinding == if namesThread && old(sentBinding).Some? && old(sentBinding).value.source == "fork"
                             then Some(old(sentBinding).value.(source := "restart")) else old(sentBinding)
      ensures old(SessionOf(sentBinding)).Some? && old(MayBeBound(sentBinding.value.sessionId)) ==>
                MayBeBound(sentBinding.value.sessionId)
      ensures (old(IsInStep()) ==> IsInStep()) && (old(Knows()) ==> Knows())
      ensures old(Calm()) && old(waits) != [] ==>
                ok && Calm() && isRunning == old(isRunning) && needsReplay == old(needsReplay)
                && |waits| >= old(|waits|) - 1
    {
      ok := true;
      if namesThread && sentBinding.Some? && sentBinding.value.source == "fork" {
        sentBinding := Some(sentBinding.value.(source := "restart"));
        var w := Pause();
        ok := w.Some? && !w.value.outcome.Failed?;
      }
    }

    /** The answered bind is the mod's last one. */
    method KeepSent(b: Binding)
      requires Valid() && Allowed(b.sessionId) && outbox != [] && outbox[0].BindItem?
      requires (forall r <- replays :: r.sessionId == b.sessionId) && sidecar != null && sidecar.binding == Some(b)
      modifies `sentBinding
      ensures Valid() && sentBinding == Some(b) && IsInStep() && MayBeBound(b.sessionId)
    {
      ReplaysLead();
      if replays == [] {
        assert Binds(replays) + ahead == ahead;
      }
      sentBinding := Some(b);
    }

    /** Posts a bind that stands at the head; once answered it is the sidecar's and the mod's last. */
    method BindAndShow(b: Binding) returns (ok: bool)
      requires Valid() && Allowed(b.sessionId) && outbox != [] && outbox[0].BindItem?
      requires forall r <- replays :: r.sessionId == b.sessionId
      modifies this, sidecar
      ensures isStopped == old(isStopped) && failures == old(failures)
      ensures Valid() && OnlyWaited() && (sidecar == null || sidecar == old(sidecar) || fresh(sidecar))
      ensures ok ==> SessionOf(sentBinding) == Some(b.sessionId) && IsInStep() && MayBeBound(b.sessionId)
      ensures sentBinding == old(sentBinding) || SessionOf(sentBinding) == Some(b.sessionId)
      ensures old(CalmFor(3)) ==>
                ok && CalmFor(0) && needsReplay == old(needsReplay) && |waits| >= old(|waits|) - 3
    {
      var namesThread;
      ok, namesThread := PostBind(b);
      if ok {
        KeepSent(b);
        ok := Show(namesThread);
      }
    }

    /** Sends a bind that stands at the head: first it is published, then posted. */
    method SendBind(b: Binding) returns (ok: bool)
      requires Valid() && Allowed(b.sessionId) && outbox != [] && outbox[0].BindItem?
      requires forall r <- replays :: r.sessionId == b.sessionId
      modifies this, sidecar
      ensures isStopped == old(isStopped) && failures == old(failures)
      ensures Valid() && OnlyWaited() && (sidecar == null || sidecar == old(sidecar) || fresh(sidecar))
      ensures ok ==> SessionOf(sentBinding) == Some(b.sessionId) && IsInStep() && MayBeBound(b.sessionId)
      ensures sentBinding == old(sentBinding) || SessionOf(sentBinding) == Some(b.sessionId)
      ensures old(CalmFor(4)) ==>
                ok && CalmFor(0) && needsReplay == old(needsReplay) && |waits| >= old(|waits|) - 4
    {
      var w := Pause();
      if w.None? || w.value.outcome.Failed? {
        return false;
      }
      ok := BindAndShow(b);
    }

    /** The sidecar takes the entries, or refuses them. */
    method TakeEntries(batch: seq<Item>, records: bool) returns (took: bool)
      requires Valid() && sidecar != null && forall e :: e in batch ==> e.Entry?
      modifies `taken
      ensures Valid() && old(taken) <= taken
      ensures took <==>
                && records && sidecar.binding.Some?
                && forall e :: e in batch ==> Some(e.sessionId) == SessionOf(sidecar.binding)
      ensures took ==> Batch(batch, sidecar.binding.value) in taken
    {
      took := sidecar.Capture(batch, records);
      if took {
        taken := taken + {Batch(batch, sidecar.binding.value)};
      }
    }

    method PostCapture(batch: seq<Item>) returns (ok: bool, namesThread: bool, boundTo: Option<Binding>)
      requires Valid() && forall e :: e in batch ==> e.Entry?
      modifies this, sidecar
      ensures isStopped == old(isStopped) && failures == old(failures)
      ensures Valid() && OnlyWaited() && (sidecar == null || sidecar == old(sidecar) || fresh(sidecar))
      ensures sentBinding == old(sentBinding) && (old(Knows()) ==> Knows()) && (old(IsInStep()) ==> IsInStep())
      ensures ok ==> boundTo.Some? && Allowed(boundTo.value.sessionId) && Batch(batch, boundTo.value) in taken
      ensures old(CalmFor(2)) && (forall e :: e in batch ==> Some(e.sessionId) == old(SessionOf(sidecar.binding)))
              && old(sidecar.binding.Some?) ==>
                ok && CalmFor(0) && needsReplay == old(needsReplay) && |waits| >= old(|waits|) - 2
    {
      namesThread, boundTo := false, None;
      ok := StartSidecar();
      if !ok {
        return;
      }
      var w := Pause();
      if w.None? || sidecar == null {
        return false, false, None;
      }
      var took := TakeEntries(batch, !w.value.outcome.Failed?);
      ok, namesThread, boundTo := took && w.value.outcome.Answered?, w.value.namesThread, sidecar.binding;
    }

    lemma ReplaysLead()
      requires Valid()
      ensures replays != [] ==> outbox != [] && outbox[0].BindItem?
    {
    }

    lemma HeadIsAllowed(b: Binding)
      requires Valid() && outbox != [] && outbox[0] == BindItem(b)
      ensures Allowed(b.sessionId)
    {
      if replays == [] {
        assert ahead[0] == outbox[0];
      } else {
        assert replays[0] in replays;
      }
    }

    lemma HeadOfAhead(b: Binding)
      requires Valid() && replays == [] && outbox != [] && outbox[0] == BindItem(b)
      ensures outbox == ahead == [BindItem(b)] + ahead[1..] && Binds([]) + ahead[1..] == ahead[1..]
      ensures Accounted(gone + [BindItem(b)], batches, taken) && gone + ahead == (gone + [BindItem(b)]) + ahead[1..]
      ensures LastSession(gone + [BindItem(b)], None) == Some(b.sessionId)
    {
      assert Binds(replays) + ahead == ahead;
      BindGone(gone, b);
      ConcatAssociative(gone, [BindItem(b)], ahead[1..]);
    }

    /** The head bind is acknowledged. */
    method ShiftBind(b: Binding)
      requires Valid() && outbox != [] && outbox[0] == BindItem(b) && IsInStep()
      requires SessionOf(sentBinding) == Some(b.sessionId) && MayBeBound(b.sessionId)
      modifies `outbox, `replays, `gone, `ahead
      ensures Valid() && IsInStep() && outbox == old(outbox)[1..]
      ensures gone + ahead == old(gone + ahead) && old(gone) <= gone
    {
      if replays != [] {
        ReplayGone(outbox, replays, ahead);
        replays := replays[1..];
      } else {
        HeadOfAhead(b);
        gone, ahead := gone + [BindItem(b)], ahead[1..];
      }
      outbox := outbox[1..];
    }

    /** A batch of entries at the head is acknowledged. */
    method ShiftBatch(batch: seq<Item>, boundTo: Binding)
      requires Valid() && batch != [] && batch <= outbox && (forall e :: e in batch ==> e.Entry?)
      requires Allowed(boundTo.sessionId) && Batch(batch, boundTo) in taken
      modifies `outbox, `gone, `ahead, `batches
      ensures Valid() && gone + ahead == old(gone + ahead) && old(gone) <= gone && outbox == old(outbox)[|batch|..]
      ensures batches == old(batches) + [Batch(batch, boundTo)] && (old(IsInStep()) ==> IsInStep())
    {
      ReplaysLead();
      assert TookItsOwn(Batch(batch, boundTo));
      assert batch[0] in batch && outbox[0] == batch[0];
      assert Binds(replays) + ahead == ahead;
      BatchAcknowledged(gone, ahead, batches, taken, batch, boundTo);
      outbox := outbox[|batch|..];
      gone, ahead, batches := gone + batch, ahead[|batch|..], batches + [Batch(batch, boundTo)];
      assert Binds(replays) + ahead == ahead;
    }

    /** The entries at the head up to the next bind, at most a batch of them. */
    method HeadBatch() returns (batch: seq<Item>)
      requires outbox != [] && outbox[0].Entry?
      ensures batch != [] && batch <= outbox && |batch| <= MAX_BATCH && forall e :: e in batch ==> e.Entry?
      ensures |batch| == MAX_BATCH || |batch| == |outbox| || outbox[|batch|].BindItem?
    {
      var barrier := 0;
      while barrier < |outbox| && outbox[barrier].Entry?
        invariant barrier <= |outbox| && forall k :: 0 <= k < barrier ==> outbox[k].Entry?
      {
        barrier := barrier + 1;
      }
      batch := outbox[..Min(MAX_BATCH, barrier)];
    }

    /** A replacement whose replayed bind failed knows no session: the bind goes to the head again. */
    method QueueReplay()
      requires Valid()
      modifies `outbox, `replays, `needsReplay
      ensures Valid() && Knows() && !needsReplay
      ensures sentBinding.None? ==> outbox == old(outbox)
      ensures sentBinding.Some? ==> outbox == [BindItem(Rebinding(sentBinding.value, "restart"))] + old(outbox)
    {
      needsReplay := false;
      if sentBinding.Some? {
        var again := Rebinding(sentBinding.value, "restart");
        assert [BindItem(again)] + outbox == Binds([again] + replays) + ahead;
        outbox, replays := [BindItem(again)] + outbox, [again] + replays;
      }
    }

    /** Everything that was queued, and will be. */
    ghost function Total(): seq<Item>
      reads this
    {
      gone + (ahead + ArrivalsOf(waits))
    }

    /** How many items are still to be sent. */
    ghost function Left(): nat
      reads this
    {
      |outbox| + |ArrivalsOf(waits)|
    }

    /** Acknowledged items and batches are never taken back, and nothing queued is lost or reordered. */
    twostate predicate Progressed()
      reads this
    {
      old(gone) <= gone && old(batches) <= batches && Total() == old(Total()) && |waits| <= old(|waits|)
    }

    /** What was acknowledged starts the count of failures anew. */
    twostate predicate CountsAnew()
      reads this
    {
      failures == 0 || (failures == old(failures) && gone == old(gone))
    }

    twostate lemma WaitedProgresses()
      requires OnlyWaited()
      ensures Progressed() && Left() == old(Left())
    {
      assert |outbox + ArrivalsOf(waits)| == |old(outbox + ArrivalsOf(waits))|;
    }

    /** Items that moved from the queue to the acknowledged. */
    twostate lemma ShiftedProgresses()
      requires gone + ahead == old(gone + ahead) && old(gone) <= gone && old(batches) <= batches && waits == old(waits)
      ensures Progressed()
    {
      ConcatAssociative(gone, ahead, ArrivalsOf(waits));
      ConcatAssociative(old(gone), old(ahead), ArrivalsOf(waits));
    }

    /** With calm waits and a sidecar that has its bind, one item at least was acknowledged. */
    twostate predicate OneSent(ok: bool)
      reads this, sidecar
    {
      old(CalmFor(4) && !needsReplay && Attributed(Total(), None)) ==>
        ok && CalmFor(0) && !needsReplay && |waits| >= old(|waits|) - 4 && Left() < old(Left())
    }

    /** Sends the bind at the head, which leaves the queue once it was answered. */
    method SendHeadBind(b: Binding) returns (ok: bool)
      requires Valid() && outbox != [] && outbox[0] == BindItem(b)
      modifies this, sidecar
      ensures isStopped == old(isStopped) && failures == old(failures) && (!ok ==> gone == old(gone))
      ensures Valid() && Knows() && Progressed() && OneSent(ok)
      ensures sidecar == null || sidecar == old(sidecar) || fresh(sidecar)
    {
      HeadIsAllowed(b);
      ok := SendBind(b);
      WaitedProgresses();
      if ok {
        label sent:
        ShiftBind(b);
        ShiftedProgresses@sent();
      }
    }

    /** The entries at the head are of the session the sidecar is bound to. */
    lemma HeadIsOfTheSession(batch: seq<Item>)
      requires Valid() && Knows() && !needsReplay && sidecar != null && Attributed(Total(), None)
      requires batch != [] && batch <= outbox && forall e :: e in batch ==> e.Entry?
      ensures forall e :: e in batch ==> Some(e.sessionId) == SessionOf(sidecar.binding)
    {
      ReplaysLead();
      assert batch[0] in batch && outbox[0] == batch[0];
      assert Binds(replays) + ahead == ahead;
      ItemsConcat(gone, ahead + ArrivalsOf(waits), None);
      LeadingEntries(ahead + ArrivalsOf(waits), batch, LastSession(gone, None));
    }

    /** Posts the entries, and shows what the answer says of the thread. */
    method PostAndShow(batch: seq<Item>) returns (ok: bool, boundTo: Option<Binding>)
      requires Valid() && Knows() && forall e :: e in batch ==> e.Entry?
      modifies this, sidecar
      ensures Valid() && Knows() && OnlyWaited() && isStopped == old(isStopped) && failures == old(failures)
      ensures old(IsInStep()) ==> IsInStep()
      ensures sidecar == null || sidecar == old(sidecar) || fresh(sidecar)
      ensures ok ==> boundTo.Some? && Allowed(boundTo.value.sessionId) && Batch(batch, boundTo.value) in taken
      ensures old(CalmFor(3)) && (forall e :: e in batch ==> Some(e.sessionId) == old(SessionOf(sidecar.binding)))
              && old(sidecar.binding.Some?) ==>
                ok && CalmFor(0) && needsReplay == old(needsReplay) && |waits| >= old(|waits|) - 3
    {
      var namesThread;
      ok, namesThread, boundTo := PostCapture(batch);
      if ok {
        ok := Show(namesThread);
      }
    }

    /** Posts the entries at the head. */
    method PostHead() returns (ok: bool, batch: seq<Item>, boundTo: Option<Binding>)
      requires Valid() && outbox != [] && outbox[0].Entry? && Knows()
      modifies this, sidecar
      ensures isStopped == old(isStopped) && failures == old(failures)
      ensures Valid() && Knows() && OnlyWaited() && (ok ==> IsInStep())
      ensures sidecar == null || sidecar == old(sidecar) || fresh(sidecar)
      ensures batch != [] && batch <= outbox && forall e :: e in batch ==> e.Entry?
      ensures ok ==> boundTo.Some? && Allowed(boundTo.value.sessionId) && Batch(batch, boundTo.value) in taken
      ensures old(CalmFor(3) && !needsReplay && Attributed(Total(), None)) ==>
                ok && CalmFor(0) && !needsReplay && |waits| >= old(|waits|) - 3
    {
      batch := HeadBatch();
      if CalmFor(3) && !needsReplay && Attributed(Total(), None) {
        HeadIsOfTheSession(batch);
      }
      ok, boundTo := PostAndShow(batch);
    }

    /** Sends the entries at the head, which leave the queue once they were answered for. */
    method SendHeadEntries() returns (ok: bool)
      requires Valid() && outbox != [] && outbox[0].Entry? && Knows()
      modifies this, sidecar
      ensures isStopped == old(isStopped) && failures == old(failures) && (!ok ==> gone == old(gone))
      ensures Valid() && Knows() && Progressed() && OneSent(ok)
      ensures sidecar == null || sidecar == old(sidecar) || fresh(sidecar)
    {
      var batch, boundTo;
      ok, batch, boundTo := PostHead();
      WaitedProgresses();
      if ok {
        label posted:
        ShiftBatch(batch, boundTo.value);
        ShiftedProgresses@posted();
      }
    }

    method SendItem() returns (ok: bool)
      requires Valid() && outbox != [] && Knows()
      modifies this, sidecar
      ensures Valid() && Knows() && Progressed() && OneSent(ok) && isStopped == old(isStopped)
      ensures failures == (if ok then 0 else old(failures)) && (!ok ==> gone == old(gone))
      ensures sidecar == null || sidecar == old(sidecar) || fresh(sidecar)
    {
      if outbox[0].BindItem? {
        ok := SendHeadBind(outbox[0].binding);
      } else {
        ok := SendHeadEntries();
      }
      if ok {
        failures := 0;
      }
    }

    /** One round for the head of the queue; false when a request failed. */
    method SendHead() returns (ok: bool)
      requires Valid() && outbox != [] && Knows()
      modifies this, sidecar
      ensures isStopped == old(isStopped) && CountsAnew()
      ensures Valid() && Knows() && Progressed() && (ok ==> |waits| < old(|waits|))
      ensures sidecar == null || sidecar == old(sidecar) || fresh(sidecar)
      ensures old(CanSend()) ==> ok && CanSend()
    {
      ok := StartSidecar();
      WaitedProgresses();
      if ok {
        label started:
        if needsReplay {
          QueueReplay();
        } else {
          ok := SendItem();
        }
      }
    }

    /**
     Sends what is queued, head first; false when a request failed. When the waits are calm and
     suffice, and every entry follows its own bind, everything queued or arriving is acknowledged.
     */
    method Send() returns (ok: bool)
      requires Valid() && Knows()
      modifies this, sidecar
      ensures isStopped == old(isStopped) && CountsAnew()
      ensures Valid() && Knows() && Progressed() && (ok ==> outbox == [])
      ensures old(CanSend()) ==> ok && ahead == [] && Total() == gone + ArrivalsOf(waits)
    {
      ok := true;
      while ok && outbox != []
        invariant Valid() && Knows() && (sidecar == null || sidecar == old(sidecar) || fresh(sidecar))
        invariant Progressed() && (old(CanSend()) ==> ok && CanSend()) && isStopped == old(isStopped) && CountsAnew()
        decreases |waits|, ok
      {
        ok := SendHead();
      }
      assert outbox == [] ==> ahead == [] && gone + (ahead + ArrivalsOf(waits)) == gone + ArrivalsOf(waits) by {
        assert |outbox| == |replays| + |ahead|;
      }
    }

    /** True means that everything queued so far was acknowledged. */
    method Drain() returns (drained: bool)
      requires Valid() && Knows()
      modifies this, sidecar
      ensures Valid() && Knows() && Progressed()
      ensures drained ==> ahead == [] && Taken(batches) == Entries(gone + ahead)
      ensures old(CanSend() && !isStopped) ==> drained
    {
      if isStopped {
        return false;
      }
      var ok := Send();
      drained := outbox == [];
      assert drained ==> ahead == [] && gone + ahead == gone by {
        assert |outbox| == |replays| + |ahead|;
      }
    }

    /** A send in the background; after too many failures in a row recording stops. */
    method Flush()
      requires Valid() && Knows()
      modifies this, sidecar
      ensures Valid() && Knows() && Progressed()
      ensures old(CanSend() && !isStopped) ==> !isStopped && ahead == []
      ensures old(isStopped) ==> isStopped && gone == old(gone)
      ensures failures <= (if gone == old(gone) then old(failures) else 0) + 1
      ensures !old(isStopped) && outbox != [] ==> failures == 1 || failures == old(failures) + 1
      ensures !old(isStopped) && old(failures) < MAX_FAILURES ==> (isStopped <==> failures >= MAX_FAILURES)
    {
      if isStopped {
        return;
      }
      var ok := Send();
      if !ok {
        failures := failures + 1;
        if failures >= MAX_FAILURES {
          isStopped := true;
        }
      }
    }
  }
}
