/**
 A notice from the tables and back: what a prompt prints from the pending results and the
 monitors' events, what is read back from the print, and what acknowledging that makes of the
 tables.
 */
module Notices {
  import opened Basics
  import opened ContinuityStore
  import opened Delivery
  import DeliveryRounds
  import EventKeys
  import OutputReads
  import MonitorEvents
  import MonitorRounds

  // ----- What acknowledging keys does to the tables -----

  /** Where one key leaves a launch's offset. */
  function Advance(offset: nat, key: string, id: string): nat {
    match EventKeys.Parsed(key)
    case Some(e) => if e.launchId == id && offset < e.endOffset then e.endOffset else offset
    case None => offset
  }

  function Advanced(offset: nat, keys: seq<string>, id: string): nat
    decreases keys
  {
    if keys == [] then offset else Advanced(Advance(offset, keys[0], id), keys[1..], id)
  }

  /** The item once the keys were acknowledged: nothing but a relaunched item's offset moves. */
  function Noted(i: Item, keys: seq<string>, id: string): Item {
    if i.relaunch.Some? then i.(eventsDelivered := Advanced(i.eventsDelivered, keys, id)) else i
  }

  /** The keys that acknowledge the result of this name: the name itself, unless it reads as an event's key. */
  predicate Names(keys: seq<string>, id: string) {
    id in keys && EventKeys.Parsed(id).None?
  }

  function Told(r: CarriedResult, keys: seq<string>, id: string): CarriedResult {
    if Names(keys, id) then r.(delivered := true) else r
  }

  /** The tables after acknowledging the keys, row by row. */
  ghost predicate AcknowledgedRows(t: Tables, keys: seq<string>, after: Tables) {
    && after.generations == t.generations
    && after.items.Keys == t.items.Keys
    && after.results.Keys == t.results.Keys
    && (forall id <- t.items :: after.items[id] == Noted(t.items[id], keys, id))
    && (forall id <- t.results :: after.results[id] == Told(t.results[id], keys, id))
  }

  lemma OneAdvance(offset: nat, key: string, id: string)
    ensures Advanced(offset, [key], id) == Advance(offset, key, id)
  {
    assert [key][1..] == [];
  }

  lemma OneKey(t: Tables, key: string)
    ensures AcknowledgedRows(t, [key], Acknowledged(t, key))
  {
    forall id <- t.items ensures Acknowledged(t, key).items[id] == Noted(t.items[id], [key], id) {
      OneAdvance(t.items[id].eventsDelivered, key, id);
    }
  }

  lemma KeyAndMore(t: Tables, keys: seq<string>, between: Tables, after: Tables)
    requires keys != []
    requires AcknowledgedRows(t, [keys[0]], between) && AcknowledgedRows(between, keys[1..], after)
    ensures AcknowledgedRows(t, keys, after)
  {
    assert keys == [keys[0]] + keys[1..];
    forall id <- t.items ensures after.items[id] == Noted(t.items[id], keys, id) {
      OneAdvance(t.items[id].eventsDelivered, keys[0], id);
    }
    forall id <- t.results ensures after.results[id] == Told(t.results[id], keys, id) {
      assert Names(keys, id) <==> Names([keys[0]], id) || Names(keys[1..], id);
    }
  }

  /** Acknowledging keys, results' and events' mixed, changes each row on its own. */
  lemma {:induction false} AcknowledgingByRow(t: Tables, keys: seq<string>)
    ensures AcknowledgedRows(t, keys, AcknowledgedAll(t, keys))
    decreases keys
  {
    if keys != [] {
      OneKey(t, keys[0]);
      AcknowledgingByRow(Acknowledged(t, keys[0]), keys[1..]);
      KeyAndMore(t, keys, Acknowledged(t, keys[0]), AcknowledgedAll(t, keys));
    }
  }

  // ----- The order of keys, and keys seen twice, make no difference -----

  /** The offset is where the keys leave it: the furthest of where it was and of all the ends named. */
  ghost predicate Furthest(offset: nat, keys: seq<string>, id: string, end: nat) {
    && offset <= end
    && (forall k <- keys :: Advance(0, k, id) <= end)
    && (end == offset || exists k :: k in keys && Advance(0, k, id) == end)
  }

  lemma {:induction false} AdvancedIsFurthest(offset: nat, keys: seq<string>, id: string)
    ensures Furthest(offset, keys, id, Advanced(offset, keys, id))
    decreases keys
  {
    if keys != [] {
      var next := Advance(offset, keys[0], id);
      AdvancedIsFurthest(next, keys[1..], id);
      assert next == Max(offset, Advance(0, keys[0], id));
      forall k <- keys ensures Advance(0, k, id) <= Advanced(offset, keys, id) {
        assert k == keys[0] || k in keys[1..];
      }
      FirstIsIn(keys);
    }
  }

  lemma SameKeysSameOffset(offset: nat, keys: seq<string>, others: seq<string>, id: string)
    requires forall k :: k in keys <==> k in others
    ensures Advanced(offset, keys, id) == Advanced(offset, others, id)
  {
    AdvancedIsFurthest(offset, keys, id);
    AdvancedIsFurthest(offset, others, id);
  }

  // ----- Notices -----

  /** The keys of shown monitor events. */
  function KeysOf(notice: seq<MonitorEvents.Event>): seq<string> {
    seq(|notice|, i requires 0 <= i < |notice| => EventKeys.Printed(notice[i].launchId, notice[i].endOffset))
  }

  /** The events as the notice prints them, their bytes read as text. */
  function LinesOf(events: seq<MonitorEvents.Event>, decode: seq<OutputReads.Byte> -> string): seq<EventLine> {
    seq(|events|, i requires 0 <= i < |events| =>
      EventLine(events[i].launchId, events[i].labelText, decode(events[i].text), events[i].endOffset))
  }

  lemma EventsOfMore(front: seq<MonitorEvents.Event>, last: MonitorEvents.Event, id: string)
    ensures MonitorRounds.EventsOf(front + [last], id)
            == if last.launchId == id then MonitorRounds.EventsOf(front, id) + [last]
               else MonitorRounds.EventsOf(front, id)
  {
    assert (front + [last])[..|front|] == front;
  }

  lemma KeysOfMore(front: seq<MonitorEvents.Event>, last: MonitorEvents.Event)
    ensures KeysOf(front + [last]) == KeysOf(front) + [EventKeys.Printed(last.launchId, last.endOffset)]
  {
  }

  /** An event whose key reads back: it names a launch, and its end is a positive safe integer. */
  ghost predicate SafeEvent(e: MonitorEvents.Event) {
    IsToken(e.launchId) && 0 < e.endOffset <= EventKeys.MAX_SAFE_INTEGER
  }

  lemma EventAdvances(offset: nat, e: MonitorEvents.Event, id: string)
    requires SafeEvent(e)
    ensures Advance(offset, EventKeys.Printed(e.launchId, e.endOffset), id)
            == if e.launchId == id then MonitorRounds.Mark(offset, e.endOffset) else offset
  {
    EventKeys.KeyRoundTrip(e.launchId, e.endOffset);
  }

  lemma MarkOnce(offset: nat, events: seq<MonitorEvents.Event>, e: MonitorEvents.Event)
    ensures MonitorRounds.MarkAll(offset, events + [e])
            == MonitorRounds.Mark(MonitorRounds.MarkAll(offset, events), e.endOffset)
  {
    assert (events + [e])[..|events|] == events;
  }

  lemma {:induction false} AdvancedOnce(offset: nat, keys: seq<string>, key: string, id: string)
    ensures Advanced(offset, keys + [key], id) == Advance(Advanced(offset, keys, id), key, id)
    decreases keys
  {
    if keys == [] {
      OneAdvance(offset, key, id);
      assert keys + [key] == [key];
    } else {
      AdvancedOnce(Advance(offset, keys[0], id), keys[1..], key, id);
      assert (keys + [key])[1..] == keys[1..] + [key];
    }
  }

  lemma OneMoreAdvances(offset: nat, front: seq<MonitorEvents.Event>, last: MonitorEvents.Event, id: string)
    requires SafeEvent(last)
    requires Advanced(offset, KeysOf(front), id) == MonitorRounds.MarkAll(offset, MonitorRounds.EventsOf(front, id))
    ensures Advanced(offset, KeysOf(front + [last]), id)
            == MonitorRounds.MarkAll(offset, MonitorRounds.EventsOf(front + [last], id))
  {
    KeysOfMore(front, last);
    EventsOfMore(front, last, id);
    AdvancedOnce(offset, KeysOf(front), EventKeys.Printed(last.launchId, last.endOffset), id);
    EventAdvances(MonitorRounds.MarkAll(offset, MonitorRounds.EventsOf(front, id)), last, id);
    MarkOnce(offset, MonitorRounds.EventsOf(front, id), last);
  }

  /** What acknowledging a notice of results and monitor events leaves of a relaunched item's offset. */
  lemma {:induction false} NoticeAdvances(offset: nat, notice: seq<MonitorEvents.Event>, id: string)
    requires forall e <- notice :: SafeEvent(e)
    ensures Advanced(offset, KeysOf(notice), id) == MonitorRounds.MarkAll(offset, MonitorRounds.EventsOf(notice, id))
  {
    if notice != [] {
      var front, last := notice[..|notice| - 1], notice[|notice| - 1];
      NoticeAdvances(offset, front, id);
      OneMoreAdvances(offset, front, last, id);
      assert notice == front + [last];
    }
  }

  /** Keys that read as no event's key move no offset. */
  lemma {:induction false} NamesMoveNothing(offset: nat, names: seq<string>, keys: seq<string>, id: string)
    requires forall k <- names :: EventKeys.Parsed(k).None?
    ensures Advanced(offset, names + keys, id) == Advanced(offset, keys, id)
    decreases names
  {
    if names == [] {
      assert names + keys == keys;
    } else {
      NamesMoveNothing(offset, names[1..], keys, id);
      assert (names + keys)[1..] == names[1..] + keys;
    }
  }

  function RowOf(id: string, r: CarriedResult): DeliveryRounds.Row {
    DeliveryRounds.Row(Finished(id, r.family, r.labelText, r.outcome), r.delivered)
  }

  /** The result rows in the order they are listed. */
  function RowsOf(t: Tables, order: seq<string>): seq<DeliveryRounds.Row>
    requires forall id <- order :: id in t.results
  {
    seq(|order|, i requires 0 <= i < |order| => RowOf(order[i], t.results[order[i]]))
  }

  /** On the listed rows the store's acknowledgement is the rounds' marking. */
  lemma StoreMarksRows(t: Tables, keys: seq<string>, order: seq<string>)
    requires forall id <- order :: id in t.results
    ensures forall id <- order :: id in AcknowledgedAll(t, keys).results
    ensures RowsOf(AcknowledgedAll(t, keys), order) == DeliveryRounds.Marked(RowsOf(t, order), keys)
  {
    AcknowledgingByRow(t, keys);
    forall i | 0 <= i < |order|
      ensures RowsOf(AcknowledgedAll(t, keys), order)[i] == DeliveryRounds.Marked(RowsOf(t, order), keys)[i]
    {
      assert order[i] in order;
    }
  }

  lemma SameKeysSameMarks(rows: seq<DeliveryRounds.Row>, keys: seq<string>, others: seq<string>)
    requires forall k :: k in keys <==> k in others
    ensures DeliveryRounds.Marked(rows, keys) == DeliveryRounds.Marked(rows, others)
  {
  }

  /** The notice a prompt prints from the listed results and the monitors' events. */
  function Notice(t: Tables, order: seq<string>, details: map<string, string>, owed: seq<MonitorEvents.Event>,
                  decode: seq<OutputReads.Byte> -> string): string
    requires forall id <- order :: id in t.results
  {
    Context(DeliveryRounds.Pending(RowsOf(t, order)), details,
            LinesOf(Take(owed, MAX_EVENTS_PER_PROMPT + 1), decode))
  }

  /** The tables once the notice was seen back: what the parser reads is acknowledged, each key once. */
  function SeenBack(t: Tables, order: seq<string>, details: map<string, string>, owed: seq<MonitorEvents.Event>,
                    decode: seq<OutputReads.Byte> -> string): Tables
    requires forall id <- order :: id in t.results
  {
    AcknowledgedAll(t, Distinct(BlockKeys(Notice(t, order, details, owed, decode))))
  }

  /** What the parser reads from the notice: the names of the results shown, then the keys of the events shown. */
  lemma ReadFromNotice(pending: seq<Finished>, details: map<string, string>, owed: seq<MonitorEvents.Event>,
                       decode: seq<OutputReads.Byte> -> string)
    requires forall r <- Take(pending, MAX_RESULTS_PER_PROMPT) :: IsToken(r.launchId)
    requires forall e <- MonitorRounds.ShownAtPrompt(owed) :: SafeEvent(e)
    ensures BlockKeys(Context(pending, details, LinesOf(Take(owed, MAX_EVENTS_PER_PROMPT + 1), decode)))
            == Ids(Take(pending, MAX_RESULTS_PER_PROMPT)) + KeysOf(MonitorRounds.ShownAtPrompt(owed))
  {
    var listed := Take(owed, MAX_EVENTS_PER_PROMPT + 1);
    var lines, shown := LinesOf(listed, decode), MonitorRounds.ShownAtPrompt(owed);
    assert Take(lines, MAX_EVENTS_PER_PROMPT) == LinesOf(shown, decode);
    forall e | e in Take(lines, MAX_EVENTS_PER_PROMPT) ensures IsToken(e.launchId) {
      var i :| 0 <= i < |shown| && LinesOf(shown, decode)[i] == e;
      assert shown[i] in shown;
    }
    KeysReadBackAreTheKeysShown(pending, details, lines);
    assert Keys(LinesOf(shown, decode)) == KeysOf(shown);
  }

  /**
   A notice printed from the tables and seen back: exactly the results and events it showed are
   acknowledged. The rows become those of a delivery round, and every relaunched item's offset
   moves as its part of the notice says.
   */
  lemma NoticeSeenBack(t: Tables, order: seq<string>, details: map<string, string>, owed: seq<MonitorEvents.Event>,
                       decode: seq<OutputReads.Byte> -> string)
    requires forall id <- order :: id in t.results
    requires forall r <- DeliveryRounds.Pending(RowsOf(t, order)) ::
               IsToken(r.launchId) && EventKeys.Parsed(r.launchId).None?
    requires forall e <- MonitorRounds.ShownAtPrompt(owed) :: SafeEvent(e)
    ensures var after, shown := SeenBack(t, order, details, owed, decode), MonitorRounds.ShownAtPrompt(owed);
      && (forall id <- order :: id in after.results)
      && RowsOf(after, order)
         == DeliveryRounds.Played(RowsOf(t, order), DeliveryRounds.Round([], details,
              LinesOf(Take(owed, MAX_EVENTS_PER_PROMPT + 1), decode)))
      && after.items.Keys == t.items.Keys
      && (forall id <- t.items :: after.items[id] ==
            if t.items[id].relaunch.None? then t.items[id]
            else t.items[id].(eventsDelivered :=
              MonitorRounds.MarkAll(t.items[id].eventsDelivered, MonitorRounds.EventsOf(shown, id))))
  {
    var rows := RowsOf(t, order);
    var pending, shown := DeliveryRounds.Pending(rows), MonitorRounds.ShownAtPrompt(owed);
    var names := Ids(Take(pending, MAX_RESULTS_PER_PROMPT));
    var keys := BlockKeys(Notice(t, order, details, owed, decode));
    ReadFromNotice(pending, details, owed, decode);
    assert keys == names + KeysOf(shown);
    AcknowledgingByRow(t, Distinct(keys));
    StoreMarksRows(t, Distinct(keys), order);
    SameKeysSameMarks(rows, Distinct(keys), keys);
    assert DeliveryRounds.Arrived(rows, []) == rows;
    forall k <- names ensures EventKeys.Parsed(k).None? {
      var i :| 0 <= i < |names| && names[i] == k;
      assert Take(pending, MAX_RESULTS_PER_PROMPT)[i] in pending;
    }
    forall id <- t.items
      ensures Advanced(t.items[id].eventsDelivered, Distinct(keys), id)
              == MonitorRounds.MarkAll(t.items[id].eventsDelivered, MonitorRounds.EventsOf(shown, id))
    {
      SameKeysSameOffset(t.items[id].eventsDelivered, Distinct(keys), keys, id);
      NamesMoveNothing(t.items[id].eventsDelivered, names, KeysOf(shown), id);
      NoticeAdvances(t.items[id].eventsDelivered, shown, id);
    }
  }
}
