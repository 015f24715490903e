/**
 Recognising the rows of an installed view: each expected message comes back as one row with
 a fresh uuid, in order, among rows that are new record.
 */
module Receipts {
  import opened Basics

  const UNMARKED := "unmarked"

  /** A row as captured; a row without a role has no fingerprint. */
  datatype Row = Row(uuid: string, isPrompt: bool, origin: string, fingerprint: Option<string>)

  datatype Receipt = Receipt(expected: seq<string>, claimed: seq<string>, earlier: seq<string>)

  /** A prompt the person typed is never installed; an unmarked recovered one may be. */
  predicate Fits(row: Row, next: string) {
    !(row.isPrompt && row.origin != UNMARKED) && row.fingerprint == Some(next)
  }

  /** The receipt after the row when the row is installed, otherwise None. */
  function Claim(receipt: Receipt, row: Row): Option<Receipt> {
    if row.uuid in receipt.claimed || row.uuid in receipt.earlier then Some(receipt)
    else if |receipt.claimed| >= |receipt.expected| then None
    else if !Fits(row, receipt.expected[|receipt.claimed|]) then None
    else Some(receipt.(claimed := receipt.claimed + [row.uuid]))
  }

  function Claimed(receipt: Receipt, rows: seq<Row>): Receipt
    decreases rows
  {
    if rows == [] then receipt else Claimed(Claim(receipt, rows[0]).GetOr(receipt), rows[1..])
  }

  /** Every row any receipt so far has claimed. */
  function Installed(receipt: Option<Receipt>): seq<string> {
    match receipt
    case None => []
    case Some(r) => r.earlier + r.claimed
  }

  // ----- The receipts of a session -----

  class SessionReceipts {
    var receipt: Option<Receipt>
    var saved: Option<Receipt>    // what the file holds

    constructor (saved: Option<Receipt>)
      ensures this.saved == receipt == saved
    {
      this.saved, receipt := saved, saved;
    }

    ghost predicate Valid()
      reads this
    {
      saved == receipt
    }

    method Persist(r: Receipt)
      modifies this
      ensures Valid() && receipt == Some(r)
    {
      saved := Some(r);
      receipt := Some(r);
    }

    predicate IsInstalled(uuid: string)
      reads this
    {
      uuid in Installed(receipt)
    }

    /** A new install to match; everything installed so far stays known. */
    method Begin(expected: seq<string>)
      requires Valid()
      modifies this
      ensures Valid() && receipt == Some(Receipt(expected, [], Installed(old(receipt))))
      ensures forall uuid :: old(IsInstalled(uuid)) <==> IsInstalled(uuid)
    {
      Persist(Receipt(expected, [], Installed(receipt)));
    }

    /** Nothing is left to match; everything installed so far stays known. */
    method Clear()
      requires Valid()
      modifies this
      ensures Valid() && receipt == if old(receipt).None? then None else Some(Receipt([], [], Installed(old(receipt))))
      ensures forall uuid :: old(IsInstalled(uuid)) <==> IsInstalled(uuid)
    {
      if receipt.Some? {
        Persist(receipt.value.(expected := [], claimed := [], earlier := Installed(receipt)));
      }
    }

    /** Whether the row is installed; a newly matched one is claimed and saved. */
    method IsProjection(row: Row) returns (yes: bool)
      requires Valid()
      modifies this
      ensures Valid() && (old(receipt).None? ==> !yes && receipt.None?)
      ensures old(receipt).Some? ==>
                var was, known := old(receipt).value, old(IsInstalled(row.uuid));
                var next := |was.claimed|;
                && (yes <==> || known
                             || (next < |was.expected| && row.fingerprint == Some(was.expected[next])
                                 && (row.isPrompt ==> row.origin == "unmarked")))
                && receipt == Some(if yes && !known then was.(claimed := was.claimed + [row.uuid]) else was)
      ensures forall uuid :: IsInstalled(uuid) <==> old(IsInstalled(uuid)) || (yes && uuid == row.uuid)
    {
      if receipt.None? {
        return false;
      }
      var claimed := Claim(receipt.value, row);
      if claimed.None? {
        return false;
      }
      if claimed.value != receipt.value {
        Persist(claimed.value);
      }
      yes := true;
    }
  }

  datatype Use = BeginInstall(expected: seq<string>) | ClearInstall | See(row: Row)

  function Used(receipt: Option<Receipt>, use: Use): Option<Receipt> {
    match use
    case BeginInstall(expected) => Some(Receipt(expected, [], Installed(receipt)))
    case ClearInstall => if receipt.None? then None else Some(Receipt([], [], Installed(receipt)))
    case See(row) => if receipt.None? then None else Some(Claim(receipt.value, row).GetOr(receipt.value))
  }

  function UsedAll(receipt: Option<Receipt>, uses: seq<Use>): Option<Receipt>
    decreases uses
  {
    if uses == [] then receipt else UsedAll(Used(receipt, uses[0]), uses[1..])
  }

  /** A row once installed stays installed over every run of installs, clears and matches. */
  lemma {:induction false} InstalledNeverShrinks(receipt: Option<Receipt>, uses: seq<Use>)
    ensures Installed(receipt) <= Installed(UsedAll(receipt, uses))
    decreases uses
  {
    if uses != [] {
      InstalledNeverShrinks(Used(receipt, uses[0]), uses[1..]);
    }
  }

  // ----- One pass over fresh rows -----

  /** Rows with uuids of their own, none known yet. */
  ghost predicate Fresh(receipt: Receipt, rows: seq<Row>) {
    && (forall i, j :: 0 <= i < j < |rows| ==> rows[i].uuid != rows[j].uuid)
    && forall row :: row in rows ==> row.uuid !in receipt.claimed && row.uuid !in receipt.earlier
  }

  /** The expected messages match rows at increasing positions. */
  ghost predicate Matches(expected: seq<string>, rows: seq<Row>, at: seq<nat>) {
    && |at| == |expected|
    && (forall i, j :: 0 <= i < j < |at| ==> at[i] < at[j])
    && forall k :: 0 <= k < |at| ==> at[k] < |rows| && Fits(rows[at[k]], expected[k])
  }

  ghost predicate IsSubsequence(expected: seq<string>, rows: seq<Row>) {
    exists at :: Matches(expected, rows, at)
  }

  function Uuids(rows: seq<Row>, at: seq<nat>): seq<string>
    requires forall k :: 0 <= k < |at| ==> at[k] < |rows|
  {
    seq(|at|, k requires 0 <= k < |at| => rows[at[k]].uuid)
  }

  function Shift(at: seq<nat>): (r: seq<nat>)
    ensures |r| == |at| && forall k :: 0 <= k < |at| ==> r[k] == at[k] + 1
  {
    seq(|at|, k requires 0 <= k < |at| => at[k] + 1)
  }

  function ShiftBack(at: seq<nat>): (r: seq<nat>)
    requires forall k :: 0 <= k < |at| ==> at[k] > 0
    ensures |r| == |at| && forall k :: 0 <= k < |at| ==> r[k] == at[k] - 1
  {
    seq(|at|, k requires 0 <= k < |at| => at[k] - 1)
  }

  /** Where a pass claims rows for the given expected messages. */
  function Positions(expected: seq<string>, rows: seq<Row>): (at: seq<nat>)
    ensures |at| <= |expected| && forall k :: 0 <= k < |at| ==> at[k] < |rows|
    decreases rows
  {
    if expected == [] || rows == [] then []
    else if Fits(rows[0], expected[0]) then [0] + Shift(Positions(expected[1..], rows[1..]))
    else Shift(Positions(expected, rows[1..]))
  }

  /** Sound: what is claimed matches the first expected messages, in order. */
  lemma {:induction false} PositionsMatch(expected: seq<string>, rows: seq<Row>)
    ensures Matches(expected[..|Positions(expected, rows)|], rows, Positions(expected, rows))
    decreases rows
  {
    if expected != [] && rows != [] {
      if Fits(rows[0], expected[0]) {
        PositionsMatch(expected[1..], rows[1..]);
      } else {
        PositionsMatch(expected, rows[1..]);
      }
    }
  }

  /** Complete: as many expected messages as rows could match at all are claimed. */
  lemma {:induction false} PositionsAreMost(expected: seq<string>, rows: seq<Row>, n: nat, at: seq<nat>)
    requires n <= |expected| && Matches(expected[..n], rows, at)
    ensures |Positions(expected, rows)| >= n
    decreases rows
  {
    if n > 0 {
      assert at[0] < |rows|;
      if Fits(rows[0], expected[0]) {
        var later := at[1..];
        assert Matches(expected[1..][..n - 1], rows[1..], ShiftBack(later));
        PositionsAreMost(expected[1..], rows[1..], n - 1, ShiftBack(later));
      } else {
        assert at[0] != 0;
        assert Matches(expected[..n], rows[1..], ShiftBack(at));
        PositionsAreMost(expected, rows[1..], n, ShiftBack(at));
      }
    }
  }

  lemma PositionsAreExact(expected: seq<string>, rows: seq<Row>, n: nat)
    requires n <= |expected|
    ensures |Positions(expected, rows)| >= n <==> IsSubsequence(expected[..n], rows)
  {
    var at := Positions(expected, rows);
    PositionsMatch(expected, rows);
    if |at| >= n {
      assert Matches(expected[..n], rows, at[..n]);
    }
    if IsSubsequence(expected[..n], rows) {
      var other :| Matches(expected[..n], rows, other);
      PositionsAreMost(expected, rows, n, other);
    }
  }

  lemma UuidsAfterFirst(rows: seq<Row>, at: seq<nat>)
    requires rows != [] && forall k :: 0 <= k < |at| ==> at[k] < |rows| - 1
    ensures Uuids(rows, Shift(at)) == Uuids(rows[1..], at)
    ensures Uuids(rows, [0] + Shift(at)) == [rows[0].uuid] + Uuids(rows[1..], at)
  {
  }

  lemma FreshAfterFirst(receipt: Receipt, rows: seq<Row>)
    requires Fresh(receipt, rows) && rows != []
    ensures Fresh(Claim(receipt, rows[0]).GetOr(receipt), rows[1..])
  {
    var next := Claim(receipt, rows[0]).GetOr(receipt);
    forall row | row in rows[1..] ensures row.uuid !in next.claimed && row.uuid !in next.earlier {
      var k :| 0 < k < |rows| && rows[k] == row;
      assert row in rows;
    }
  }

  function Left(receipt: Receipt): seq<string>
    requires |receipt.claimed| <= |receipt.expected|
  {
    receipt.expected[|receipt.claimed|..]
  }

  lemma {:induction false} NothingLeft(receipt: Receipt, rows: seq<Row>)
    requires rows == [] || |receipt.claimed| >= |receipt.expected|
    ensures Claimed(receipt, rows) == receipt
    decreases rows
  {
    if rows != [] {
      NothingLeft(receipt, rows[1..]);
    }
  }

  /** A pass over fresh rows claims exactly the rows at those positions. */
  lemma {:induction false} PassClaims(receipt: Receipt, rows: seq<Row>)
    requires Fresh(receipt, rows) && |receipt.claimed| <= |receipt.expected|
    ensures Claimed(receipt, rows) ==
            receipt.(claimed := receipt.claimed + Uuids(rows, Positions(Left(receipt), rows)))
    decreases rows
  {
    if rows == [] || Left(receipt) == [] {
      NothingLeft(receipt, rows);
    } else {
      FirstIsIn(rows);
      FreshAfterFirst(receipt, rows);
      var next := Claim(receipt, rows[0]).GetOr(receipt);
      PassClaims(next, rows[1..]);
      var at := Positions(Left(next), rows[1..]);
      UuidsAfterFirst(rows, at);
      if Fits(rows[0], Left(receipt)[0]) {
        assert Left(next) == Left(receipt)[1..];
        ConcatAssociative(receipt.claimed, [rows[0].uuid], Uuids(rows[1..], at));
      }
    }
  }

  /**
   The matcher is sound and complete: after a pass over fresh rows the newly claimed uuids are
   those of rows that match the next expected messages in order, and n more messages are
   claimed exactly when the next n are a subsequence of the rows.
   */
  lemma MatcherIsExact(receipt: Receipt, rows: seq<Row>, n: nat)
    requires Fresh(receipt, rows) && |receipt.claimed| + n <= |receipt.expected|
    ensures var left, after := Left(receipt), Claimed(receipt, rows);
      && after.expected == receipt.expected && after.earlier == receipt.earlier && receipt.claimed <= after.claimed
      && |after.claimed| <= |receipt.expected|
      && (|after.claimed| >= |receipt.claimed| + n <==> IsSubsequence(left[..n], rows))
      && exists at :: Matches(left[..|after.claimed| - |receipt.claimed|], rows, at)
                      && after.claimed == receipt.claimed + Uuids(rows, at)
  {
    var at := Positions(Left(receipt), rows);
    PassClaims(receipt, rows);
    PositionsMatch(Left(receipt), rows);
    PositionsAreExact(Left(receipt), rows, n);
  }
}
