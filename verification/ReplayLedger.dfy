/**
 The replay ledger of the Claude host. Control calls that change a setting are recorded so
 that a replacement generation can be given them again; a later call for the same slot
 replaces the earlier one, or for settings objects only the keys it sets. The compacted
 ledger must mean what the full history of calls means.
 */
module ReplayLedger {
  import opened Basics

  /** The controls that are forwarded and replayed. */
  datatype Control =
    | SetModel | SetPermissionMode | SetMaxThinkingTokens | SetMcpServers
    | ApplyFlagSettings | UpdateSettings | ToggleMcpServer | SetMcpPermissionModeOverride

  /** Settings objects, whose keys are superseded one by one. */
  predicate Merges(c: Control) {
    c.ApplyFlagSettings? || c.UpdateSettings?
  }

  /** Controls with one slot for each first argument: a settings source or a server name. */
  predicate Named(c: Control) {
    c.UpdateSettings? || c.ToggleMcpServer? || c.SetMcpPermissionModeOverride?
  }

  datatype Field = Field(key: string, value: string)

  /** `name` is the settings source or server; `fields` the settings object or the other arguments. */
  datatype Call = Call(control: Control, name: string, fields: seq<Field>)

  datatype Slot = Slot(control: Control, name: string)

  function SlotOf(call: Call): Slot {
    Slot(call.control, if Named(call.control) then call.name else "")
  }

  // ----- What calls mean -----

  /** One overwrite: a key of a slot, or the whole slot when `key` is None. */
  datatype Write = Write(slot: Slot, key: Option<string>, fields: seq<Field>)

  /** The writes of a settings object, key by key. */
  function FieldWrites(slot: Slot, fields: seq<Field>): seq<Write> {
    seq(|fields|, i requires 0 <= i < |fields| => Write(slot, Some(fields[i].key), [fields[i]]))
  }

  function WritesOf(call: Call): seq<Write> {
    if Merges(call.control) then FieldWrites(SlotOf(call), call.fields)
    else [Write(SlotOf(call), None, call.fields)]
  }

  function AllWrites(calls: seq<Call>): seq<Write> {
    if calls == [] then [] else WritesOf(calls[0]) + AllWrites(calls[1..])
  }

  /**
   A reading says which cells of the runtime's settings a key of a slot overwrites; different
   slots and keys may share cells. What a cell holds is determined by its last write.
   */
  type Reading = (Slot, Option<string>) -> set<nat>

  type Settings = map<nat, Write>

  function Apply(w: Write, cells: Reading, st: Settings): Settings {
    st + map c | c in cells(w.slot, w.key) :: w
  }

  function Play(writes: seq<Write>, cells: Reading, st: Settings): Settings {
    if writes == [] then st else Play(writes[1..], cells, Apply(writes[0], cells, st))
  }

  function PlayCalls(calls: seq<Call>, cells: Reading, st: Settings): Settings {
    Play(AllWrites(calls), cells, st)
  }

  lemma {:induction false} PlayConcat(a: seq<Write>, b: seq<Write>, cells: Reading, st: Settings)
    ensures Play(a + b, cells, st) == Play(b, cells, Play(a, cells, st))
    decreases a
  {
    if a == [] {
      assert a + b == b;
    } else {
      assert (a + b)[1..] == a[1..] + b;
      PlayConcat(a[1..], b, cells, Apply(a[0], cells, st));
    }
  }

  // ----- A superseded write may be dropped -----

  predicate SameTarget(a: Write, b: Write) {
    a.slot == b.slot && a.key == b.key
  }

  predicate Superseded(w: Write, later: seq<Write>) {
    exists v :: v in later && SameTarget(w, v)
  }

  function Keep(earlier: seq<Write>, later: seq<Write>): seq<Write> {
    if earlier == [] then []
    else (if Superseded(earlier[0], later) then [] else [earlier[0]]) + Keep(earlier[1..], later)
  }

  ghost predicate AgreeOff(a: Settings, b: Settings, cells: set<nat>) {
    forall c :: c !in cells ==> (c in a <==> c in b) && (c in a ==> a[c] == b[c])
  }

  /** Settings that differ only in cells a coming write overwrites end up equal. */
  lemma {:induction false} OverwrittenLater(writes: seq<Write>, w: Write, cells: Reading, a: Settings, b: Settings)
    requires w in writes && AgreeOff(a, b, cells(w.slot, w.key))
    ensures Play(writes, cells, a) == Play(writes, cells, b)
    decreases writes
  {
    var a', b' := Apply(writes[0], cells, a), Apply(writes[0], cells, b);
    if writes[0] == w {
      assert a' == b';
    } else {
      assert w in writes[1..];
      assert AgreeOff(a', b', cells(w.slot, w.key));
      OverwrittenLater(writes[1..], w, cells, a', b');
    }
  }

  lemma PlayFirst(w: Write, rest: seq<Write>, cells: Reading, st: Settings)
    ensures Play([w] + rest, cells, st) == Play(rest, cells, Apply(w, cells, st))
  {
    assert ([w] + rest)[1..] == rest;
  }

  /** A write that a coming write supersedes may be skipped. */
  lemma SkipSuperseded(w: Write, rest: seq<Write>, later: seq<Write>, cells: Reading, st: Settings)
    requires Superseded(w, later)
    ensures Play([w] + (rest + later), cells, st) == Play(rest + later, cells, st)
  {
    PlayFirst(w, rest + later, cells, st);
    var v :| v in later && SameTarget(w, v);
    assert v in rest + later;
    OverwrittenLater(rest + later, v, cells, Apply(w, cells, st), st);
  }

  lemma KeepFirst(w: Write, rest: seq<Write>, later: seq<Write>)
    ensures Keep([w] + rest, later) == if Superseded(w, later) then Keep(rest, later) else [w] + Keep(rest, later)
  {
    assert ([w] + rest)[1..] == rest;
  }

  lemma {:induction false} DroppingSuperseded(earlier: seq<Write>, later: seq<Write>, cells: Reading, st: Settings)
    ensures Play(Keep(earlier, later) + later, cells, st) == Play(earlier + later, cells, st)
    decreases earlier
  {
    if earlier != [] {
      var w, rest := earlier[0], earlier[1..];
      assert earlier == [w] + rest;
      ConcatAssociative([w], rest, later);
      KeepFirst(w, rest, later);
      if Superseded(w, later) {
        SkipSuperseded(w, rest, later, cells, st);
        DroppingSuperseded(rest, later, cells, st);
      } else {
        var kept := Keep(rest, later);
        DroppingSuperseded(rest, later, cells, Apply(w, cells, st));
        PlayFirst(w, rest + later, cells, st);
        PlayFirst(w, kept + later, cells, st);
        ConcatAssociative([w], kept, later);
      }
    }
  }

  // ----- The ledger -----

  datatype Entry = Entry(seqNo: nat, call: Call)

  function Keys(fields: seq<Field>): set<string> {
    set f | f in fields :: f.key
  }

  /** The fields whose key the later object does not set. */
  function KeysNotIn(earlier: seq<Field>, keys: set<string>): seq<Field> {
    if earlier == [] then []
    else (if earlier[0].key in keys then [] else [earlier[0]]) + KeysNotIn(earlier[1..], keys)
  }

  /** What is left of an earlier call once `later` is recorded. */
  function Remainder(earlier: Call, later: Call): Option<Call> {
    if SlotOf(earlier) != SlotOf(later) then Some(earlier)
    else if !Merges(later.control) then None
    else
      var rest := KeysNotIn(earlier.fields, Keys(later.fields));
      if rest == [] then None else Some(earlier.(fields := rest))
  }

  /** An entry keeps its number while a part of its call is left. */
  function Left(entry: Entry, call: Call): seq<Entry> {
    var rest := Remainder(entry.call, call);
    if rest.None? then [] else [entry.(call := rest.value)]
  }

  function Remainders(entries: seq<Entry>, call: Call): seq<Entry> {
    if entries == [] then [] else Left(entries[0], call) + Remainders(entries[1..], call)
  }

  function Calls(entries: seq<Entry>): (calls: seq<Call>)
    ensures |calls| == |entries|
  {
    seq(|entries|, i requires 0 <= i < |entries| => entries[i].call)
  }

  function After(entries: seq<Entry>, seqNo: nat): seq<Entry> {
    if entries == [] then []
    else (if entries[0].seqNo > seqNo then [entries[0]] else []) + After(entries[1..], seqNo)
  }

  /**
   Past every cursor, the entries mean what the calls recorded since mean: from any settings
   and for any reading of what a key overwrites. Cursor 0 is the whole ledger.
   */
  ghost predicate Faithful(entries: seq<Entry>, history: seq<Call>) {
    && (forall e :: e in entries ==> 0 < e.seqNo <= |history|)
    && forall n: nat, cells: Reading, st: Settings :: n <= |history| ==>
         PlayCalls(Calls(After(entries, n)), cells, st) == PlayCalls(history[n..], cells, st)
  }

  // ----- The compacted ledger means the history -----

  lemma {:induction false} AllWritesConcat(a: seq<Call>, b: seq<Call>)
    ensures AllWrites(a + b) == AllWrites(a) + AllWrites(b)
    decreases a
  {
    if a == [] {
      assert a + b == b;
    } else {
      assert (a + b)[1..] == a[1..] + b;
      AllWritesConcat(a[1..], b);
      ConcatAssociative(WritesOf(a[0]), AllWrites(a[1..]), AllWrites(b));
    }
  }

  lemma {:induction false} KeepConcat(a: seq<Write>, b: seq<Write>, later: seq<Write>)
    ensures Keep(a + b, later) == Keep(a, later) + Keep(b, later)
    decreases a
  {
    if a == [] {
      assert a + b == b;
    } else {
      assert (a + b)[1..] == a[1..] + b;
      KeepConcat(a[1..], b, later);
    }
  }

  lemma {:induction false} KeepNone(writes: seq<Write>, later: seq<Write>)
    requires forall w :: w in writes ==> !Superseded(w, later)
    ensures Keep(writes, later) == writes
    decreases writes
  {
    if writes != [] {
      KeepNone(writes[1..], later);
    }
  }

  lemma FieldSuperseded(slot: Slot, field: Field, later: seq<Field>)
    ensures Superseded(Write(slot, Some(field.key), [field]), FieldWrites(slot, later)) <==> field.key in Keys(later)
  {
    var w, writes := Write(slot, Some(field.key), [field]), FieldWrites(slot, later);
    if f :| f in later && f.key == field.key {
      var i :| 0 <= i < |later| && later[i] == f;
      assert writes[i] in writes && SameTarget(w, writes[i]);
    }
    if v :| v in writes && SameTarget(w, v) {
      var i :| 0 <= i < |writes| && writes[i] == v;
      assert later[i] in later;
    }
  }

  lemma {:induction false} KeepKeys(slot: Slot, fields: seq<Field>, later: seq<Field>)
    ensures Keep(FieldWrites(slot, fields), FieldWrites(slot, later))
            == FieldWrites(slot, KeysNotIn(fields, Keys(later)))
    decreases fields
  {
    var writes := FieldWrites(slot, fields);
    if fields != [] {
      KeepKeys(slot, fields[1..], later);
      assert writes[1..] == FieldWrites(slot, fields[1..]);
      FieldSuperseded(slot, fields[0], later);
      var rest := KeysNotIn(fields[1..], Keys(later));
      assert FieldWrites(slot, [fields[0]] + rest) == [writes[0]] + FieldWrites(slot, rest);
      assert FieldWrites(slot, [] + rest) == FieldWrites(slot, rest);
    }
  }

  lemma RemainderWritesOther(earlier: Call, later: Call)
    requires SlotOf(earlier) != SlotOf(later)
    ensures Keep(WritesOf(earlier), WritesOf(later)) == WritesOf(earlier)
  {
    assert forall w :: w in WritesOf(earlier) ==> w.slot == SlotOf(earlier);
    assert forall w :: w in WritesOf(later) ==> w.slot == SlotOf(later);
    KeepNone(WritesOf(earlier), WritesOf(later));
  }

  /** What is left of a superseded call writes what the later call does not. */
  lemma RemainderWrites(earlier: Call, later: Call)
    ensures Keep(WritesOf(earlier), WritesOf(later))
            == if Remainder(earlier, later).None? then [] else WritesOf(Remainder(earlier, later).value)
  {
    if SlotOf(earlier) != SlotOf(later) {
      RemainderWritesOther(earlier, later);
    } else if !Merges(later.control) {
      var w, v := Write(SlotOf(earlier), None, earlier.fields), Write(SlotOf(later), None, later.fields);
      assert v in [v] && SameTarget(w, v);
      assert [w][1..] == [];
    } else {
      KeepKeys(SlotOf(earlier), earlier.fields, later.fields);
      assert FieldWrites(SlotOf(earlier), []) == [];
    }
  }

  lemma OneCall(call: Call)
    ensures AllWrites([call]) == WritesOf(call)
  {
    assert [call][1..] == [];
    assert WritesOf(call) + AllWrites([]) == WritesOf(call);
  }

  lemma CallsExtend(entries: seq<Entry>, more: seq<Entry>)
    ensures AllWrites(Calls(entries + more)) == AllWrites(Calls(entries)) + AllWrites(Calls(more))
  {
    assert Calls(entries + more) == Calls(entries) + Calls(more);
    AllWritesConcat(Calls(entries), Calls(more));
  }

  lemma LeftWrites(entry: Entry, call: Call)
    ensures AllWrites(Calls(Left(entry, call))) == Keep(WritesOf(entry.call), WritesOf(call))
  {
    RemainderWrites(entry.call, call);
    var rest := Remainder(entry.call, call);
    if rest.Some? {
      OneCall(rest.value);
      assert Calls([entry.(call := rest.value)]) == [rest.value];
    }
  }

  lemma {:induction false} RemaindersWrites(entries: seq<Entry>, call: Call)
    ensures AllWrites(Calls(Remainders(entries, call))) == Keep(AllWrites(Calls(entries)), WritesOf(call))
    decreases entries
  {
    if entries != [] {
      RemaindersWrites(entries[1..], call);
      LeftWrites(entries[0], call);
      CallsExtend(Left(entries[0], call), Remainders(entries[1..], call));
      KeepConcat(WritesOf(entries[0].call), AllWrites(Calls(entries[1..])), WritesOf(call));
      assert Calls(entries)[1..] == Calls(entries[1..]);
    }
  }

  /** One more recorded call: its writes come after what is left of the earlier ones. */
  lemma RecordMeans(entries: seq<Entry>, before: seq<Call>, call: Call, seqNo: nat, cells: Reading, st: Settings)
    requires PlayCalls(Calls(entries), cells, st) == PlayCalls(before, cells, st)
    ensures PlayCalls(Calls(Remainders(entries, call) + [Entry(seqNo, call)]), cells, st)
            == PlayCalls(before + [call], cells, st)
  {
    var writes, kept := WritesOf(call), Remainders(entries, call);
    RemaindersWrites(entries, call);
    CallsExtend(kept, [Entry(seqNo, call)]);
    assert Calls([Entry(seqNo, call)]) == [call];
    OneCall(call);
    DroppingSuperseded(AllWrites(Calls(entries)), writes, cells, st);
    PlayConcat(AllWrites(Calls(entries)), writes, cells, st);
    AllWritesConcat(before, [call]);
    PlayConcat(AllWrites(before), writes, cells, st);
  }

  lemma {:induction false} AfterConcat(a: seq<Entry>, b: seq<Entry>, n: nat)
    ensures After(a + b, n) == After(a, n) + After(b, n)
    decreases a
  {
    if a == [] {
      assert a + b == b;
    } else {
      assert (a + b)[1..] == a[1..] + b;
      AfterConcat(a[1..], b, n);
    }
  }

  lemma AfterLeft(entry: Entry, call: Call, n: nat)
    ensures After(Left(entry, call), n) == if entry.seqNo > n then Left(entry, call) else []
  {
  }

  /** Remainders keep their numbers, so superseding and cutting at a cursor commute. */
  lemma {:induction false} AfterRemainders(entries: seq<Entry>, call: Call, n: nat)
    ensures After(Remainders(entries, call), n) == Remainders(After(entries, n), call)
    decreases entries
  {
    if entries != [] {
      AfterRemainders(entries[1..], call, n);
      AfterConcat(Left(entries[0], call), Remainders(entries[1..], call), n);
      AfterLeft(entries[0], call, n);
      if entries[0].seqNo > n {
        assert After(entries, n)[1..] == After(entries[1..], n);
      } else {
        assert After(entries, n) == After(entries[1..], n);
      }
    }
  }

  lemma {:induction false} RemaindersKeepNumbers(entries: seq<Entry>, call: Call, n: nat)
    requires forall e :: e in entries ==> 0 < e.seqNo <= n
    ensures forall e :: e in Remainders(entries, call) ==> 0 < e.seqNo <= n
    decreases entries
  {
    if entries != [] {
      RemaindersKeepNumbers(entries[1..], call, n);
    }
  }

  lemma {:induction false} AfterNone(entries: seq<Entry>, n: nat)
    requires forall e :: e in entries ==> e.seqNo <= n
    ensures After(entries, n) == []
    decreases entries
  {
    if entries != [] {
      AfterNone(entries[1..], n);
    }
  }

  lemma NothingRecorded()
    ensures Faithful([], [])
  {
  }

  lemma RecordMeansPast(entries: seq<Entry>, history: seq<Call>, call: Call, n: nat, cells: Reading, st: Settings)
    requires Faithful(entries, history) && n <= |history|
    ensures PlayCalls(Calls(After(Remainders(entries, call) + [Entry(|history| + 1, call)], n)), cells, st)
            == PlayCalls((history + [call])[n..], cells, st)
  {
    var last := [Entry(|history| + 1, call)];
    AfterConcat(Remainders(entries, call), last, n);
    assert After(last, n) == last by { assert last[1..] == [] && After([], n) == []; }
    AfterRemainders(entries, call, n);
    RecordMeans(After(entries, n), history[n..], call, |history| + 1, cells, st);
    assert (history + [call])[n..] == history[n..] + [call];
  }

  /**
   Recording a call keeps the ledger faithful: replaying the compacted ledger, in one go or
   from any cursor, leaves every setting as replaying the full history does.
   */
  lemma RecordIsFaithful(entries: seq<Entry>, history: seq<Call>, call: Call)
    requires Faithful(entries, history)
    ensures Faithful(Remainders(entries, call) + [Entry(|history| + 1, call)], history + [call])
  {
    var after, k := Remainders(entries, call) + [Entry(|history| + 1, call)], |history|;
    RemaindersKeepNumbers(entries, call, k);
    forall n: nat, cells: Reading, st: Settings | n <= k + 1
      ensures PlayCalls(Calls(After(after, n)), cells, st) == PlayCalls((history + [call])[n..], cells, st)
    {
      if n <= k {
        RecordMeansPast(entries, history, call, n, cells, st);
      } else {
        AfterNone(after, n);
        assert Calls([]) == [] && (history + [call])[n..] == [];
      }
    }
  }

  lemma HistorySplits(history: seq<Call>, n: nat, cells: Reading, st: Settings)
    requires n <= |history|
    ensures PlayCalls(history[n..], cells, PlayCalls(history[..n], cells, st)) == PlayCalls(history, cells, st)
  {
    var first, since := history[..n], history[n..];
    assert first + since == history;
    AllWritesConcat(first, since);
    PlayConcat(AllWrites(first), AllWrites(since), cells, st);
  }

  /** Replaying up to a cursor and then what was recorded since gives what the whole history gives. */
  lemma InstalmentsCompose(entries: seq<Entry>, history: seq<Call>, n: nat, cells: Reading, st: Settings)
    requires Faithful(entries, history) && n <= |history|
    ensures PlayCalls(Calls(After(entries, n)), cells, PlayCalls(history[..n], cells, st))
            == PlayCalls(history, cells, st)
  {
    HistorySplits(history, n, cells, st);
  }

  /** No two writes overwrite the same key of the same slot. */
  ghost predicate OnePerTarget(writes: seq<Write>) {
    forall i, j :: 0 <= i < j < |writes| ==> !SameTarget(writes[i], writes[j])
  }

  ghost predicate DistinctKeys(fields: seq<Field>) {
    forall i, j :: 0 <= i < j < |fields| ==> fields[i].key != fields[j].key
  }

  lemma {:induction false} KeptAreEarlier(earlier: seq<Write>, later: seq<Write>)
    ensures forall w :: w in Keep(earlier, later) ==> w in earlier && !Superseded(w, later)
    decreases earlier
  {
    if earlier != [] {
      KeptAreEarlier(earlier[1..], later);
    }
  }

  lemma PrependOnePerTarget(w: Write, rest: seq<Write>)
    requires OnePerTarget(rest) && forall v :: v in rest ==> !SameTarget(w, v)
    ensures OnePerTarget([w] + rest)
  {
  }

  lemma FirstHasOwnTarget(earlier: seq<Write>, later: seq<Write>)
    requires earlier != [] && OnePerTarget(earlier) && !Superseded(earlier[0], later)
    ensures forall v :: v in Keep(earlier[1..], later) + later ==> !SameTarget(earlier[0], v)
  {
    KeptAreEarlier(earlier[1..], later);
    forall v | v in earlier[1..] ensures !SameTarget(earlier[0], v) {
      var i :| 0 <= i < |earlier[1..]| && earlier[1..][i] == v;
      assert earlier[i + 1] == v;
    }
  }

  lemma {:induction false} KeepOnePerTarget(earlier: seq<Write>, later: seq<Write>)
    requires OnePerTarget(earlier) && OnePerTarget(later)
    ensures OnePerTarget(Keep(earlier, later) + later)
    decreases earlier
  {
    if earlier == [] {
      assert Keep(earlier, later) + later == later;
    } else {
      KeepOnePerTarget(earlier[1..], later);
      assert earlier == [earlier[0]] + earlier[1..];
      KeepFirst(earlier[0], earlier[1..], later);
      if !Superseded(earlier[0], later) {
        FirstHasOwnTarget(earlier, later);
        PrependOnePerTarget(earlier[0], Keep(earlier[1..], later) + later);
        ConcatAssociative([earlier[0]], Keep(earlier[1..], later), later);
      }
    }
  }

  lemma CallOnePerTarget(call: Call)
    requires DistinctKeys(call.fields)
    ensures OnePerTarget(WritesOf(call))
  {
  }

  lemma RecordedWrites(entries: seq<Entry>, call: Call, seqNo: nat)
    ensures AllWrites(Calls(Remainders(entries, call) + [Entry(seqNo, call)]))
            == Keep(AllWrites(Calls(entries)), WritesOf(call)) + WritesOf(call)
  {
    RemaindersWrites(entries, call);
    CallsExtend(Remainders(entries, call), [Entry(seqNo, call)]);
    assert Calls([Entry(seqNo, call)]) == [call];
    OneCall(call);
  }

  /** The ledger never holds two writes to the same key, so it does not grow with the history. */
  lemma RecordKeepsOnePerTarget(entries: seq<Entry>, call: Call, seqNo: nat)
    requires OnePerTarget(AllWrites(Calls(entries))) && DistinctKeys(call.fields)
    ensures OnePerTarget(AllWrites(Calls(Remainders(entries, call) + [Entry(seqNo, call)])))
  {
    RecordedWrites(entries, call, seqNo);
    CallOnePerTarget(call);
    KeepOnePerTarget(AllWrites(Calls(entries)), WritesOf(call));
  }

  // ----- What the ledger holds, from the calls alone -----

  /** One thing a control call sets, named as the call names it. */
  datatype Setting =
    | Model | PermissionMode | ThinkingTokens | Servers
    | Flag(key: string)
    | OfSource(source: string, key: string)
    | ServerEnabled(server: string)
    | ServerMode(server: string)

  /** What it is set to: the value of a key, or the whole call. */
  datatype Given = Value(value: string) | Whole(call: Call)

  /** The last value a settings object gives to a key. */
  function ValueGiven(fields: seq<Field>, key: string): Option<Given> {
    if fields == [] then None
    else if ValueGiven(fields[1..], key).Some? then ValueGiven(fields[1..], key)
    else if fields[0].key == key then Some(Value(fields[0].value))
    else None
  }

  /** What a call gives to a setting, if anything. */
  function Gives(call: Call, x: Setting): Option<Given> {
    match call.control
    case SetModel => if x == Model then Some(Whole(call)) else None
    case SetPermissionMode => if x == PermissionMode then Some(Whole(call)) else None
    case SetMaxThinkingTokens => if x == ThinkingTokens then Some(Whole(call)) else None
    case SetMcpServers => if x == Servers then Some(Whole(call)) else None
    case ApplyFlagSettings => if x.Flag? then ValueGiven(call.fields, x.key) else None
    case UpdateSettings => if x.OfSource? && x.source == call.name then ValueGiven(call.fields, x.key) else None
    case ToggleMcpServer => if x == ServerEnabled(call.name) then Some(Whole(call)) else None
    case SetMcpPermissionModeOverride => if x == ServerMode(call.name) then Some(Whole(call)) else None
  }

  /** What the last call that gives a setting anything gives it. */
  function LastGiven(calls: seq<Call>, x: Setting): Option<Given> {
    if calls == [] then None
    else if LastGiven(calls[1..], x).Some? then LastGiven(calls[1..], x)
    else Gives(calls[0], x)
  }

  /** No two of the calls give the setting anything. */
  predicate GivenOnce(calls: seq<Call>, x: Setting) {
    calls != [] ==>
      (Gives(calls[0], x).Some? ==> LastGiven(calls[1..], x).None?) && GivenOnce(calls[1..], x)
  }

  /** Of every setting the ledger holds what the history gave it last, in one entry, and nothing else. */
  ghost predicate HoldsLast(entries: seq<Entry>, history: seq<Call>) {
    forall x: Setting :: LastGiven(Calls(entries), x) == LastGiven(history, x) && GivenOnce(Calls(entries), x)
  }

  lemma {:induction false} KeyIsGiven(fields: seq<Field>, key: string)
    ensures key in Keys(fields) <==> ValueGiven(fields, key).Some?
  {
    if fields != [] {
      KeyIsGiven(fields[1..], key);
      assert forall f :: f in fields <==> f == fields[0] || f in fields[1..];
    }
  }

  lemma {:induction false} ValueOfKeysNotIn(fields: seq<Field>, later: seq<Field>, key: string)
    ensures ValueGiven(KeysNotIn(fields, Keys(later)), key)
            == if ValueGiven(later, key).Some? then None else ValueGiven(fields, key)
  {
    KeyIsGiven(later, key);
    if fields != [] {
      ValueOfKeysNotIn(fields[1..], later, key);
      var rest := KeysNotIn(fields[1..], Keys(later));
      assert ([fields[0]] + rest)[1..] == rest && [] + rest == rest;
    }
  }

  /** Calls of two slots give no setting in common. */
  lemma OtherSlotsGiveOthers(earlier: Call, later: Call, x: Setting)
    requires SlotOf(earlier) != SlotOf(later)
    ensures Gives(earlier, x).None? || Gives(later, x).None?
  {
    if earlier.control == later.control {
      assert Named(later.control) && earlier.name != later.name;
    }
  }

  lemma MergedGives(earlier: Call, later: Call, x: Setting)
    requires SlotOf(earlier) == SlotOf(later) && Merges(later.control)
    ensures var rest := KeysNotIn(earlier.fields, Keys(later.fields));
      (if rest == [] then None else Gives(earlier.(fields := rest), x))
      == if Gives(later, x).Some? then None else Gives(earlier, x)
  {
    assert earlier.control == later.control;
    if x.Flag? || x.OfSource? {
      ValueOfKeysNotIn(earlier.fields, later.fields, x.key);
    }
  }

  /** What is left of a call gives what the later call does not. */
  lemma RemainderGives(earlier: Call, later: Call, x: Setting)
    ensures var rest := Remainder(earlier, later);
      (if rest.Some? then Gives(rest.value, x) else None)
      == if Gives(later, x).Some? then None else Gives(earlier, x)
  {
    if SlotOf(earlier) != SlotOf(later) {
      OtherSlotsGiveOthers(earlier, later, x);
    } else if Merges(later.control) {
      MergedGives(earlier, later, x);
    } else {
      assert earlier.control == later.control && (Named(later.control) ==> earlier.name == later.name);
      assert Gives(earlier, x).Some? <==> Gives(later, x).Some?;
    }
  }

  lemma LeftGives(entry: Entry, call: Call, x: Setting)
    ensures LastGiven(Calls(Left(entry, call)), x) == if Gives(call, x).Some? then None else Gives(entry.call, x)
    ensures GivenOnce(Calls(Left(entry, call)), x)
  {
    RemainderGives(entry.call, call, x);
    var rest := Remainder(entry.call, call);
    if rest.Some? {
      assert Calls(Left(entry, call)) == [rest.value] && [rest.value][1..] == [];
    }
  }

  lemma {:induction false} LastGivenConcat(a: seq<Call>, b: seq<Call>, x: Setting)
    ensures LastGiven(a + b, x) == if LastGiven(b, x).Some? then LastGiven(b, x) else LastGiven(a, x)
    ensures GivenOnce(a + b, x)
            <==> GivenOnce(a, x) && GivenOnce(b, x) && (LastGiven(a, x).None? || LastGiven(b, x).None?)
    decreases a
  {
    if a == [] {
      assert a + b == b;
    } else {
      assert (a + b)[0] == a[0] && (a + b)[1..] == a[1..] + b;
      LastGivenConcat(a[1..], b, x);
    }
  }

  lemma {:induction false} RemaindersGive(entries: seq<Entry>, call: Call, x: Setting)
    requires GivenOnce(Calls(entries), x)
    ensures var rest := Calls(Remainders(entries, call));
      LastGiven(rest, x) == (if Gives(call, x).Some? then None else LastGiven(Calls(entries), x)) && GivenOnce(rest, x)
    decreases entries
  {
    if entries != [] {
      assert Calls(entries)[1..] == Calls(entries[1..]);
      RemaindersGive(entries[1..], call, x);
      LeftGives(entries[0], call, x);
      var left, rest := Left(entries[0], call), Remainders(entries[1..], call);
      assert Calls(left + rest) == Calls(left) + Calls(rest);
      LastGivenConcat(Calls(left), Calls(rest), x);
    }
  }

  /**
   Recording keeps this: the last call of each server's switches is held whole, the last value of
   each key of each settings source and of each flag, and the last of each other call.
   */
  lemma RecordHoldsLast(entries: seq<Entry>, history: seq<Call>, call: Call, seqNo: nat)
    requires HoldsLast(entries, history)
    ensures HoldsLast(Remainders(entries, call) + [Entry(seqNo, call)], history + [call])
  {
    var rest, last := Remainders(entries, call), [Entry(seqNo, call)];
    assert Calls(rest + last) == Calls(rest) + [call] && [call][1..] == [];
    forall x: Setting
      ensures LastGiven(Calls(rest + last), x) == LastGiven(history + [call], x) && GivenOnce(Calls(rest + last), x)
    {
      RemaindersGive(entries, call, x);
      LastGivenConcat(Calls(rest), [call], x);
      LastGivenConcat(history, [call], x);
    }
  }

  // ----- The ledger itself -----

  method RecordedSince(entries: seq<Entry>, n: nat) returns (kept: seq<Entry>)
    ensures kept == After(entries, n)
  {
    kept := [];
    for i := 0 to |entries|
      invariant After(entries, n) == kept + After(entries[i..], n)
    {
      assert entries[i..][1..] == entries[i + 1..];
      var first := if entries[i].seqNo > n then [entries[i]] else [];
      ConcatAssociative(kept, first, After(entries[i + 1..], n));
      kept := kept + first;
    }
  }

  method Supersede(entries: seq<Entry>, call: Call) returns (kept: seq<Entry>)
    ensures kept == Remainders(entries, call)
  {
    kept := [];
    for i := 0 to |entries|
      invariant Remainders(entries, call) == kept + Remainders(entries[i..], call)
    {
      assert entries[i..][1..] == entries[i + 1..];
      ConcatAssociative(kept, Left(entries[i], call), Remainders(entries[i + 1..], call));
      kept := kept + Left(entries[i], call);
    }
  }

  /** `history` is every call the ledger was given. */
  class Ledger {
    var entries: seq<Entry>
    var seqNo: nat
    ghost var history: seq<Call>

    constructor ()
      ensures Valid() && history == []
    {
      entries, seqNo, history := [], 0, [];
      NothingRecorded();
      assert Calls([]) == [];
    }

    ghost predicate Valid()
      reads this
    {
      Faithful(entries, history) && HoldsLast(entries, history) && seqNo == |history|
    }

    method Record(call: Call)
      requires Valid()
      modifies this
      ensures Valid() && history == old(history) + [call]
      ensures entries == Remainders(old(entries), call) + [Entry(old(seqNo) + 1, call)]
    {
      var kept := Supersede(entries, call);
      seqNo := seqNo + 1;
      RecordIsFaithful(entries, history, call);
      RecordHoldsLast(entries, history, call, seqNo);
      entries := kept + [Entry(seqNo, call)];
      history := history + [call];
    }

    method RecordedAfter(n: nat) returns (calls: seq<Call>)
      ensures calls == Calls(After(entries, n))
    {
      var kept := RecordedSince(entries, n);
      calls := Calls(kept);
    }
  }

  /** What happens while the replay waits: calls that settle, and calls recorded during the invocations. */
  datatype Meanwhile = Meanwhile(settled: seq<Call>, during: seq<Call>)

  method RecordAll(ledger: Ledger, calls: seq<Call>)
    requires ledger.Valid()
    modifies ledger
    ensures ledger.Valid() && ledger.history == old(ledger.history) + calls
  {
    for i := 0 to |calls|
      invariant ledger.Valid() && ledger.history == old(ledger.history) + calls[..i]
    {
      ledger.Record(calls[i]);
      assert calls[..i + 1] == calls[..i] + [calls[i]];
    }
  }

  function Dropped(works: seq<bool>, n: nat): seq<bool> {
    works[Min(n, |works|)..]
  }

  /** The calls whose invocation works, as the outside decides in turn; with nothing decided it works. */
  function Working(calls: seq<Call>, works: seq<bool>): seq<Call>
    decreases calls
  {
    if calls == [] then []
    else (if works == [] || works[0] then [calls[0]] else []) + Working(calls[1..], Dropped(works, 1))
  }

  lemma DroppedTwice(works: seq<bool>, m: nat, n: nat)
    ensures Dropped(Dropped(works, m), n) == Dropped(works, m + n)
  {
    if m + n < |works| {
      assert works[m..][n..] == works[m + n..];
    } else {
      assert |Dropped(Dropped(works, m), n)| == 0;
    }
  }

  lemma {:induction false} WorkingConcat(a: seq<Call>, b: seq<Call>, works: seq<bool>)
    ensures Working(a + b, works) == Working(a, works) + Working(b, Dropped(works, |a|))
    decreases a
  {
    if a == [] {
      assert a + b == b;
    } else {
      assert (a + b)[1..] == a[1..] + b;
      WorkingConcat(a[1..], b, Dropped(works, 1));
      DroppedTwice(works, 1, |a| - 1);
      ConcatAssociative(if works == [] || works[0] then [a[0]] else [], Working(a[1..], Dropped(works, 1)),
                        Working(b, Dropped(works, |a|)));
    }
  }

  lemma {:induction false} AllWork(calls: seq<Call>, works: seq<bool>)
    requires false !in works
    ensures Working(calls, works) == calls
    decreases calls
  {
    if calls != [] {
      assert works != [] ==> works[0] in works;
      AllWork(calls[1..], Dropped(works, 1));
    }
  }

  lemma OneMoreCall(calls: seq<Call>, call: Call, works: seq<bool>, cells: Reading, st: Settings)
    ensures var did := Dropped(works, |calls|);
      PlayCalls(Working(calls + [call], works), cells, st)
      == var before := PlayCalls(Working(calls, works), cells, st);
         if did == [] || did[0] then Play(WritesOf(call), cells, before) else before
  {
    var did, front := Dropped(works, |calls|), Working(calls, works);
    WorkingConcat(calls, [call], works);
    if did == [] || did[0] {
      assert Working([call], did) == [call];
      AllWritesConcat(front, [call]);
      OneCall(call);
      PlayConcat(AllWrites(front), WritesOf(call), cells, st);
    } else {
      assert Working([call], did) == [];
      assert front + [] == front;
    }
  }

  /** Invokes each call on the generation; a call that fails is skipped. */
  method Invoke(calls: seq<Call>, works: seq<bool>, cells: Reading, st: Settings) returns (held: Settings)
    ensures held == PlayCalls(Working(calls, works), cells, st)
  {
    held := st;
    for i := 0 to |calls|
      invariant held == PlayCalls(Working(calls[..i], works), cells, st)
    {
      assert calls[..i + 1] == calls[..i] + [calls[i]];
      OneMoreCall(calls[..i], calls[i], works, cells, st);
      if i >= |works| || works[i] {
        held := Play(WritesOf(calls[i]), cells, held);
      }
    }
    assert calls[..|calls|] == calls;
  }

  /** Further calls, replayed where the earlier ones ended. */
  lemma ReplayedFurther(tried: seq<Call>, calls: seq<Call>, works: seq<bool>, cells: Reading, st: Settings)
    ensures PlayCalls(tried + calls, cells, st) == PlayCalls(calls, cells, PlayCalls(tried, cells, st))
    ensures PlayCalls(Working(tried + calls, works), cells, st)
            == PlayCalls(Working(calls, Dropped(works, |tried|)), cells, PlayCalls(Working(tried, works), cells, st))
  {
    AllWritesConcat(tried, calls);
    PlayConcat(AllWrites(tried), AllWrites(calls), cells, st);
    WorkingConcat(tried, calls, works);
    AllWritesConcat(Working(tried, works), Working(calls, Dropped(works, |tried|)));
    PlayConcat(AllWrites(Working(tried, works)), AllWrites(Working(calls, Dropped(works, |tried|))), cells, st);
  }

  /**
   Replays the ledger into a new generation until nothing is left to replay, while calls keep
   being recorded; `late` are the controls still in flight at the exit, recorded after it. The
   generation holds what the calls that worked leave, and the calls tried mean all that was
   recorded up to the exit.
   */
  method ReplayControls(ledger: Ledger, meanwhile: seq<Meanwhile>, works: seq<bool>, late: seq<Call>, cells: Reading,
                        st: Settings)
    returns (held: Settings, ghost tried: seq<Call>)
    requires ledger.Valid()
    modifies ledger
    ensures ledger.Valid() && old(ledger.history) <= ledger.history
    ensures |late| <= |ledger.history| && ledger.history[|ledger.history| - |late|..] == late
    ensures held == PlayCalls(Working(tried, works), cells, st)
    ensures PlayCalls(tried + late, cells, st) == PlayCalls(ledger.history, cells, st)
  {
    held, tried := st, [];
    var seen, round, invoked := 0, 0, 0;
    while true
      invariant ledger.Valid() && old(ledger.history) <= ledger.history
      invariant round <= |meanwhile| && seen <= |ledger.history| && invoked == |tried|
      invariant PlayCalls(tried, cells, st) == PlayCalls(ledger.history[..seen], cells, st)
      invariant held == PlayCalls(Working(tried, works), cells, st)
      decreases |meanwhile| - round, |ledger.history| - seen
    {
      ghost var before := ledger.history;
      if round < |meanwhile| {
        RecordAll(ledger, meanwhile[round].settled);
      }
      assert ledger.history[..seen] == before[..seen];
      var calls := ledger.RecordedAfter(seen);
      InstalmentsCompose(ledger.entries, ledger.history, seen, cells, st);
      if calls == [] {
        break;
      }
      if seen == |ledger.history| {
        AfterNone(ledger.entries, seen);
        assert false;
      }
      seen := ledger.seqNo;
      held := Invoke(calls, Dropped(works, invoked), cells, held);
      ReplayedFurther(tried, calls, works, cells, st);
      tried, invoked := tried + calls, invoked + |calls|;
      before := ledger.history;
      assert before[..seen] == before;
      if round < |meanwhile| {
        RecordAll(ledger, meanwhile[round].during);
        round := round + 1;
      }
      assert ledger.history[..seen] == before;
    }
    ReplayedFurther(tried, late, works, cells, st);
    ReplayedFurther(ledger.history, late, works, cells, st);
    RecordAll(ledger, late);
  }

  // ----- When the replacement holds what was recorded -----

  /** The last write to each key of each slot, in the order of these last writes. */
  function Normal(writes: seq<Write>): seq<Write> {
    if writes == [] then []
    else (if Superseded(writes[0], writes[1..]) then [] else [writes[0]]) + Normal(writes[1..])
  }

  lemma {:induction false} NormalMeans(writes: seq<Write>, cells: Reading, st: Settings)
    ensures Play(Normal(writes), cells, st) == Play(writes, cells, st)
    decreases writes
  {
    if writes != [] {
      var w, rest := writes[0], writes[1..];
      assert writes == [w] + rest && [] + rest == rest && [] + Normal(rest) == Normal(rest);
      if Superseded(w, rest) {
        SkipSuperseded(w, [], rest, cells, st);
        NormalMeans(rest, cells, st);
      } else {
        NormalMeans(rest, cells, Apply(w, cells, st));
        PlayFirst(w, Normal(rest), cells, st);
      }
    }
  }

  lemma {:induction false} NormalOnePerTarget(writes: seq<Write>)
    ensures OnePerTarget(Normal(writes)) && forall w :: w in Normal(writes) ==> w in writes
    decreases writes
  {
    if writes != [] {
      NormalOnePerTarget(writes[1..]);
      if Superseded(writes[0], writes[1..]) {
        assert Normal(writes) == Normal(writes[1..]);
      } else {
        PrependOnePerTarget(writes[0], Normal(writes[1..]));
      }
    }
  }

  /** A list with one write to each target is its own normal form. */
  lemma {:induction false} NormalKeeps(writes: seq<Write>)
    requires OnePerTarget(writes)
    ensures Normal(writes) == writes
    decreases writes
  {
    if writes != [] {
      var rest := writes[1..];
      forall v | v in rest ensures !SameTarget(writes[0], v) {
        var i :| 0 <= i < |rest| && rest[i] == v;
        assert writes[i + 1] == v;
      }
      NormalKeeps(rest);
    }
  }

  /** The last write to a cell. */
  function LastAt(writes: seq<Write>, cells: Reading, c: nat): Option<Write> {
    if writes == [] then None
    else
      var last := writes[|writes| - 1];
      if c in cells(last.slot, last.key) then Some(last) else LastAt(writes[..|writes| - 1], cells, c)
  }

  lemma {:induction false} PlayedCell(writes: seq<Write>, cells: Reading, c: nat)
    ensures var held := Play(writes, cells, map[]);
            LastAt(writes, cells, c) == if c in held then Some(held[c]) else None
    decreases |writes|
  {
    if writes != [] {
      var front, last := writes[..|writes| - 1], writes[|writes| - 1];
      PlayedCell(front, cells, c);
      assert writes == front + [last];
      PlayConcat(front, [last], cells, map[]);
      PlayFirst(last, [], cells, Play(front, cells, map[]));
    }
  }

  /** The writes leave the same settings, whatever a key overwrites and whatever was set before. */
  ghost predicate SameMeaning(a: seq<Write>, b: seq<Write>) {
    forall cells: Reading, st: Settings :: Play(a, cells, st) == Play(b, cells, st)
  }

  ghost predicate SameLast(a: seq<Write>, b: seq<Write>) {
    forall cells: Reading :: LastAt(a, cells, 0) == LastAt(b, cells, 0)
  }

  lemma MeaningGivesLast(a: seq<Write>, b: seq<Write>)
    requires SameMeaning(a, b)
    ensures SameLast(a, b)
  {
    forall cells: Reading ensures LastAt(a, cells, 0) == LastAt(b, cells, 0) {
      PlayedCell(a, cells, 0);
      PlayedCell(b, cells, 0);
      assert Play(a, cells, map[]) == Play(b, cells, map[]);
    }
  }

  /** The reading under which exactly the targets of two writes share a cell. */
  function Only(v: Write, w: Write): Reading {
    (slot, key) => if (slot == v.slot && key == v.key) || (slot == w.slot && key == w.key) then {0} else {}
  }

  /** The reading that leaves the target of one write out. */
  function Without(cells: Reading, w: Write): Reading {
    (slot, key) => if slot == w.slot && key == w.key then {} else cells(slot, key)
  }

  lemma {:induction false} WithoutTarget(writes: seq<Write>, cells: Reading, w: Write)
    requires forall v :: v in writes ==> !SameTarget(v, w)
    ensures LastAt(writes, Without(cells, w), 0) == LastAt(writes, cells, 0)
    decreases |writes|
  {
    if writes != [] {
      WithoutTarget(writes[..|writes| - 1], cells, w);
      assert writes[|writes| - 1] in writes;
    }
  }

  lemma FrontHasNot(writes: seq<Write>)
    requires OnePerTarget(writes) && writes != []
    ensures var front, last := writes[..|writes| - 1], writes[|writes| - 1];
            OnePerTarget(front) && forall v :: v in front ==> !SameTarget(v, last)
  {
  }

  lemma SameLastInFront(a: seq<Write>, b: seq<Write>, w: Write)
    requires OnePerTarget(a + [w]) && OnePerTarget(b + [w]) && SameLast(a + [w], b + [w])
    ensures OnePerTarget(a) && OnePerTarget(b) && SameLast(a, b)
  {
    FrontHasNot(a + [w]);
    FrontHasNot(b + [w]);
    assert (a + [w])[..|a|] == a && (b + [w])[..|b|] == b;
    forall cells: Reading ensures LastAt(a, cells, 0) == LastAt(b, cells, 0) {
      WithoutTarget(a, cells, w);
      WithoutTarget(b, cells, w);
      assert LastAt(a + [w], Without(cells, w), 0) == LastAt(b + [w], Without(cells, w), 0);
    }
  }

  /** Lists with one write to each target are told apart by the readings. */
  lemma {:induction false} SameLastSameWrites(a: seq<Write>, b: seq<Write>)
    requires OnePerTarget(a) && OnePerTarget(b) && SameLast(a, b)
    ensures a == b
    decreases |a|
  {
    if a == [] || b == [] {
      var w := if a != [] then a[|a| - 1] else if b != [] then b[|b| - 1] else Write(Slot(SetModel, ""), None, []);
      assert LastAt(a, Only(w, w), 0) == LastAt(b, Only(w, w), 0);
    } else {
      var v, w := a[|a| - 1], b[|b| - 1];
      assert LastAt(a, Only(v, w), 0) == LastAt(b, Only(v, w), 0);
      assert a == a[..|a| - 1] + [w] && b == b[..|b| - 1] + [w];
      SameLastInFront(a[..|a| - 1], b[..|b| - 1], w);
      SameLastSameWrites(a[..|a| - 1], b[..|b| - 1]);
    }
  }

  /** Writes mean the same exactly when their normal forms are the same list. */
  lemma SameMeaningIffSameNormal(a: seq<Write>, b: seq<Write>)
    ensures SameMeaning(a, b) <==> Normal(a) == Normal(b)
  {
    forall cells: Reading, st: Settings
      ensures Play(Normal(a), cells, st) == Play(a, cells, st) && Play(Normal(b), cells, st) == Play(b, cells, st)
    {
      NormalMeans(a, cells, st);
      NormalMeans(b, cells, st);
    }
    if SameMeaning(a, b) {
      NormalOnePerTarget(a);
      NormalOnePerTarget(b);
      assert SameMeaning(Normal(a), Normal(b));
      MeaningGivesLast(Normal(a), Normal(b));
      SameLastSameWrites(Normal(a), Normal(b));
    }
  }

  lemma {:induction false} AfterStart(entries: seq<Entry>)
    requires forall e :: e in entries ==> 0 < e.seqNo
    ensures After(entries, 0) == entries
    decreases entries
  {
    if entries != [] {
      AfterStart(entries[1..]);
    }
  }

  /** The compacted ledger is, write by write, the normal form of its history. */
  lemma LedgerIsNormal(entries: seq<Entry>, history: seq<Call>)
    requires Faithful(entries, history) && OnePerTarget(AllWrites(Calls(entries)))
    ensures AllWrites(Calls(entries)) == Normal(AllWrites(history))
  {
    AfterStart(entries);
    var a, b := AllWrites(Calls(entries)), AllWrites(history);
    assert history[0..] == history;
    forall cells: Reading, st: Settings ensures Play(a, cells, st) == Play(b, cells, st) {
      assert PlayCalls(Calls(After(entries, 0)), cells, st) == PlayCalls(history[0..], cells, st);
    }
    SameMeaningIffSameNormal(a, b);
    NormalKeeps(a);
  }

  /** The replacement holds what was recorded, whatever the calls overwrite and it was started with. */
  ghost predicate HoldsTheRecorded(tried: seq<Call>, works: seq<bool>, late: seq<Call>) {
    forall cells: Reading, st: Settings ::
      PlayCalls(Working(tried, works), cells, st) == PlayCalls(tried + late, cells, st)
  }

  /**
   The replacement is sure to hold the recorded settings exactly when the last writes to each key
   among the calls that worked are, write by write, those among all calls tried and late.
   */
  lemma HoldsTheRecordedIff(tried: seq<Call>, works: seq<bool>, late: seq<Call>)
    ensures HoldsTheRecorded(tried, works, late)
            <==> Normal(AllWrites(Working(tried, works))) == Normal(AllWrites(tried + late))
  {
    var a, b := AllWrites(Working(tried, works)), AllWrites(tried + late);
    SameMeaningIffSameNormal(a, b);
    if HoldsTheRecorded(tried, works, late) {
      forall cells: Reading, st: Settings ensures Play(a, cells, st) == Play(b, cells, st) {
        assert PlayCalls(Working(tried, works), cells, st) == PlayCalls(tried + late, cells, st);
      }
    } else {
      var cells: Reading, st: Settings :|
        PlayCalls(Working(tried, works), cells, st) != PlayCalls(tried + late, cells, st);
      assert Play(a, cells, st) != Play(b, cells, st);
    }
  }

  /** With no failure and nothing late it always does. */
  lemma NoFailureHoldsTheRecorded(tried: seq<Call>, works: seq<bool>)
    requires false !in works
    ensures HoldsTheRecorded(tried, works, [])
  {
    AllWork(tried, works);
    assert tried + [] == tried;
  }

  lemma {:induction false} LastIsNormal(writes: seq<Write>)
    requires writes != []
    ensures Normal(writes) != []
    decreases writes
  {
    if |writes| > 1 {
      LastIsNormal(writes[1..]);
    }
  }

  /** A call that sets something and fails, or comes late, on a generation that holds nothing, is missing. */
  lemma MissedCall(call: Call)
    requires WritesOf(call) != []
    ensures !HoldsTheRecorded([call], [false], []) && !HoldsTheRecorded([], [], [call])
  {
    assert [call] + [] == [call] == [] + [call];
    assert Working([call], [false]) == [] == Working([], []);
    OneCall(call);
    LastIsNormal(WritesOf(call));
    HoldsTheRecordedIff([call], [false], []);
    HoldsTheRecordedIff([], [], [call]);
  }
}
