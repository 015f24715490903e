/** Notice after notice: every pending result is shown once, in order, ten at a time. */
module DeliveryRounds {
  import opened Basics
  import opened Delivery
  import EventKeys

  /** The result rows of a thread in the order they are listed in. */
  datatype Row = Row(finished: Finished, delivered: bool)

  datatype Round = Round(arrivals: seq<Finished>, details: map<string, string>, events: seq<EventLine>)

  function Pending(rows: seq<Row>): seq<Finished> {
    if rows == [] then []
    else (if rows[0].delivered then [] else [rows[0].finished]) + Pending(rows[1..])
  }

  /** Acknowledging a key marks the result of that name, unless the key is an event's. */
  function Marked(rows: seq<Row>, keys: seq<string>): seq<Row> {
    seq(|rows|, i requires 0 <= i < |rows| =>
      if rows[i].finished.launchId in keys && EventKeys.Parsed(rows[i].finished.launchId).None?
      then rows[i].(delivered := true) else rows[i])
  }

  function Arrived(rows: seq<Row>, arrivals: seq<Finished>): seq<Row> {
    rows + seq(|arrivals|, i requires 0 <= i < |arrivals| => Row(arrivals[i], false))
  }

  function ShownIn(rows: seq<Row>): seq<Finished> {
    Take(Pending(rows), MAX_RESULTS_PER_PROMPT)
  }

  /** New results arrive, the pending ones are printed, and what is read back from the print is acknowledged. */
  function Played(rows: seq<Row>, r: Round): seq<Row> {
    var now := Arrived(rows, r.arrivals);
    Marked(now, BlockKeys(Context(Pending(now), r.details, r.events)))
  }

  function PlayedAll(rows: seq<Row>, rounds: seq<Round>): seq<Row>
    decreases rounds
  {
    if rounds == [] then rows else PlayedAll(Played(rows, rounds[0]), rounds[1..])
  }

  function ShownInAll(rows: seq<Row>, rounds: seq<Round>): seq<Finished>
    decreases rounds
  {
    if rounds == [] then []
    else ShownIn(Arrived(rows, rounds[0].arrivals)) + ShownInAll(Played(rows, rounds[0]), rounds[1..])
  }

  function ArrivedInAll(rounds: seq<Round>): seq<Finished> {
    if rounds == [] then [] else rounds[0].arrivals + ArrivedInAll(rounds[1..])
  }

  /** Names are tokens, none is an event key, and no name has two results. */
  ghost predicate Named(all: seq<Finished>) {
    && (forall f :: f in all ==> IsToken(f.launchId) && EventKeys.Parsed(f.launchId).None?)
    && NoDup(Ids(all))
  }

  ghost predicate EventsNamed(events: seq<EventLine>) {
    forall e :: e in events ==> IsToken(e.launchId) && 0 < e.endOffset <= EventKeys.MAX_SAFE_INTEGER
  }

  function Besides(all: seq<Finished>, keys: seq<string>): seq<Finished> {
    if all == [] then []
    else
      var isKey := all[0].launchId in keys && EventKeys.Parsed(all[0].launchId).None?;
      (if isKey then [] else [all[0]]) + Besides(all[1..], keys)
  }

  lemma {:induction false} PendingMarked(rows: seq<Row>, keys: seq<string>)
    ensures Pending(Marked(rows, keys)) == Besides(Pending(rows), keys)
    decreases rows
  {
    if rows != [] {
      PendingMarked(rows[1..], keys);
      assert Marked(rows, keys)[1..] == Marked(rows[1..], keys);
      var first := if rows[0].delivered then [] else [rows[0].finished];
      assert first == [] ==> first + Pending(rows[1..]) == Pending(rows[1..]);
      assert first != [] ==> (first + Pending(rows[1..]))[1..] == Pending(rows[1..]);
    }
  }

  lemma {:induction false} PendingArrived(rows: seq<Row>, arrivals: seq<Finished>)
    ensures Pending(Arrived(rows, arrivals)) == Pending(rows) + arrivals
    decreases |rows|, |arrivals|
  {
    if rows != [] {
      PendingArrived(rows[1..], arrivals);
      assert Arrived(rows, arrivals)[1..] == Arrived(rows[1..], arrivals);
      ConcatAssociative(if rows[0].delivered then [] else [rows[0].finished], Pending(rows[1..]), arrivals);
    } else if arrivals != [] {
      PendingArrived([], arrivals[1..]);
      assert Arrived([], arrivals)[1..] == Arrived([], arrivals[1..]);
    }
  }

  /** Leaving out the first n names of a list without doubles leaves its rest. */
  lemma {:induction false} BesidesTheFirst(all: seq<Finished>, n: nat, keys: seq<string>)
    requires Named(all) && n <= |all|
    requires forall i :: 0 <= i < |all| ==> (all[i].launchId in keys <==> i < n)
    ensures Besides(all, keys) == all[n..]
    decreases all
  {
    if all != [] {
      FirstIsIn(all);
      assert Ids(all)[1..] == Ids(all[1..]);
      forall i | 0 <= i < |all[1..]| ensures all[1..][i].launchId in keys <==> i < n - 1 {
        assert all[1..][i] == all[i + 1];
      }
      BesidesTheFirst(all[1..], if n == 0 then 0 else n - 1, keys);
    }
  }

  lemma EventsNameNoResult(launchId: string, shown: seq<EventLine>)
    requires EventKeys.Parsed(launchId).None? && EventsNamed(shown)
    ensures launchId !in Keys(shown)
  {
    forall k | 0 <= k < |shown| ensures Keys(shown)[k] != launchId {
      assert shown[k] in shown;
      EventKeys.KeyRoundTrip(shown[k].launchId, shown[k].endOffset);
    }
  }

  lemma KeysNameTheFirst(all: seq<Finished>, n: nat, shown: seq<EventLine>)
    requires Named(all) && n <= |all| && EventsNamed(shown)
    ensures forall i :: 0 <= i < |all| ==> (all[i].launchId in Ids(all[..n]) + Keys(shown) <==> i < n)
  {
    var first, ids := Ids(all[..n]), Ids(all);
    assert first == ids[..n];
    forall i | 0 <= i < |all| ensures all[i].launchId in first + Keys(shown) <==> i < n {
      EventsNameNoResult(all[i].launchId, shown);
      assert ids[i] == all[i].launchId;
      assert i < n ==> first[i] == ids[i];
    }
  }

  /** One notice shows the first ten pending results, and only the others are pending after it. */
  lemma RoundDelivers(rows: seq<Row>, r: Round)
    requires Named(Pending(rows) + r.arrivals) && EventsNamed(r.events)
    ensures var all := Pending(rows) + r.arrivals;
      && ShownIn(Arrived(rows, r.arrivals)) == all[..Min(MAX_RESULTS_PER_PROMPT, |all|)]
      && Pending(Played(rows, r)) == all[Min(MAX_RESULTS_PER_PROMPT, |all|)..]
  {
    var all := Pending(rows) + r.arrivals;
    var n := Min(MAX_RESULTS_PER_PROMPT, |all|);
    PendingArrived(rows, r.arrivals);
    KeysReadBackAreTheKeysShown(all, r.details, r.events);
    var shown := Take(r.events, MAX_EVENTS_PER_PROMPT);
    KeysNameTheFirst(all, n, shown);
    BesidesTheFirst(all, n, Ids(all[..n]) + Keys(shown));
    PendingMarked(Arrived(rows, r.arrivals), Ids(all[..n]) + Keys(shown));
  }

  lemma NamedTail(all: seq<Finished>, n: nat)
    requires Named(all) && n <= |all|
    ensures Named(all[n..])
  {
    assert forall k :: 0 <= k < |all| - n ==> Ids(all[n..])[k] == Ids(all)[n + k];
  }

  lemma HeadAndRest<T>(all: seq<T>, n: nat, later: seq<T>, shown: seq<T>, left: seq<T>)
    requires n <= |all| && shown + left == all[n..] + later
    ensures (all[..n] + shown) + left == all + later
  {
    ConcatAssociative(all[..n], shown, left);
    ConcatAssociative(all[..n], all[n..], later);
    assert all[..n] + all[n..] == all;
  }

  lemma NamedRest(all: seq<Finished>, later: seq<Finished>, n: nat)
    requires Named(all + later) && n <= |all|
    ensures Named(all[n..] + later)
  {
    assert (all + later)[n..] == all[n..] + later;
    NamedTail(all + later, n);
  }

  lemma NamedHead(all: seq<Finished>, later: seq<Finished>)
    requires Named(all + later)
    ensures Named(all)
  {
    assert forall f :: f in all ==> f in all + later;
    assert forall k :: 0 <= k < |all| ==> Ids(all)[k] == Ids(all + later)[k];
  }

  /** Over any rounds: what was shown, and then what still waits, is all there ever was, in order. */
  lemma {:induction false} EveryResultShownOnce(rows: seq<Row>, rounds: seq<Round>)
    requires Named(Pending(rows) + ArrivedInAll(rounds)) && forall r :: r in rounds ==> EventsNamed(r.events)
    ensures ShownInAll(rows, rounds) + Pending(PlayedAll(rows, rounds)) == Pending(rows) + ArrivedInAll(rounds)
    decreases rounds
  {
    if rounds != [] {
      FirstIsIn(rounds);
      var r, later := rounds[0], ArrivedInAll(rounds[1..]);
      var all := Pending(rows) + r.arrivals;
      var n := Min(MAX_RESULTS_PER_PROMPT, |all|);
      var next := Played(rows, r);
      ConcatAssociative(Pending(rows), r.arrivals, later);
      NamedHead(all, later);
      RoundDelivers(rows, r);
      NamedRest(all, later, n);
      EveryResultShownOnce(next, rounds[1..]);
      HeadAndRest(all, n, later, ShownInAll(next, rounds[1..]), Pending(PlayedAll(next, rounds[1..])));
    }
  }

  /** Without new results each round takes ten off, so enough rounds deliver everything. */
  lemma {:induction false} EnoughRoundsDeliverAll(rows: seq<Row>, rounds: seq<Round>)
    requires Named(Pending(rows)) && forall r :: r in rounds ==> r.arrivals == [] && EventsNamed(r.events)
    ensures Pending(PlayedAll(rows, rounds)) == Pending(rows)[Min(MAX_RESULTS_PER_PROMPT * |rounds|, |Pending(rows)|)..]
    decreases rounds
  {
    if rounds != [] {
      FirstIsIn(rounds);
      var all := Pending(rows);
      assert all + [] == all;
      RoundDelivers(rows, rounds[0]);
      NamedTail(all, Min(MAX_RESULTS_PER_PROMPT, |all|));
      EnoughRoundsDeliverAll(Played(rows, rounds[0]), rounds[1..]);
    }
  }
}
