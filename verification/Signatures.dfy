/** The content signatures of a thread: a table with running numbers that stands for a list. */
module Signatures {
  import opened Basics

  const MAX_THREAD_SIGNATURES: nat := 500

  /** A thread's rows: the number each signature was inserted under. */
  type Rows = map<string, nat>

  // ----- The list -----

  function Merged(existing: seq<string>, added: seq<string>): seq<string>
    decreases added
  {
    if added == [] then existing
    else Merged(if added[0] in existing then existing else existing + [added[0]], added[1..])
  }

  function Trimmed(signatures: seq<string>): seq<string> {
    if |signatures| <= MAX_THREAD_SIGNATURES then signatures else signatures[|signatures| - MAX_THREAD_SIGNATURES..]
  }

  function MergedAndTrimmed(existing: seq<string>, added: seq<string>): seq<string> {
    Trimmed(Merged(existing, added))
  }

  method MergeSignatures(existing: seq<string>, added: seq<string>) returns (r: seq<string>)
    ensures r == MergedAndTrimmed(existing, added)
    ensures |r| <= MAX_THREAD_SIGNATURES
  {
    var merged := existing;
    for k := 0 to |added|
      invariant Merged(merged, added[k..]) == Merged(existing, added)
    {
      assert added[k..][1..] == added[k + 1..];
      if added[k] !in merged {
        merged := merged + [added[k]];
      }
    }
    assert added[|added|..] == [];
    r := Trimmed(merged);
  }

  // ----- The table -----

  /** The highest number in use, or 0. */
  ghost function MaxSeq(rows: Rows): (n: nat)
    ensures forall s :: s in rows ==> rows[s] <= n
    ensures n == 0 || exists s :: s in rows && rows[s] == n
    decreases rows.Keys
  {
    if rows == map[] then 0
    else
      var s :| s in rows;
      var rest := rows - {s};
      assert forall u :: u in rows ==> u == s || (u in rest && rest[u] == rows[u]);
      Max(rows[s], MaxSeq(rest))
  }

  /** Each added signature takes the next number; one that is there already is ignored, its number too. */
  function Inserted(rows: Rows, added: seq<string>, last: nat): Rows
    decreases added
  {
    if added == [] then rows
    else Inserted(if added[0] in rows then rows else rows[added[0] := last + 1], added[1..], last + 1)
  }

  function Newer(rows: Rows, signature: string): set<string>
    requires signature in rows
  {
    set u | u in rows && rows[u] > rows[signature]
  }

  function Kept(rows: Rows): Rows {
    map s | s in rows && |Newer(rows, s)| < MAX_THREAD_SIGNATURES :: rows[s]
  }

  ghost function Appended(rows: Rows, added: seq<string>): Rows {
    if added == [] then rows else Kept(Inserted(rows, added, MaxSeq(rows)))
  }

  /** The rows by ascending number. */
  ghost predicate IsListing(rows: Rows, list: seq<string>) {
    && (forall s :: s in list <==> s in rows)
    && forall i, j :: 0 <= i < j < |list| ==> rows[list[i]] < rows[list[j]]
  }

  lemma NextListed(rows: Rows, list: seq<string>, n: nat)
    requires IsListing(rows, list) && n <= |list|
    ensures n < |list| ==>
              && list[n] in rows && list[n] !in list[..n]
              && forall u :: u in rows ==> u in list[..n] || u == list[n] || rows[list[n]] < rows[u]
  {
    if n < |list| {
      assert list[n] in list;
      forall u | u in rows ensures u in list[..n] || u == list[n] || rows[list[n]] < rows[u] {
        var k :| 0 <= k < |list| && list[k] == u;
        if k < n {
          assert list[..n][k] == u;
        }
      }
    }
  }

  lemma {:induction false} DistinctCount(list: seq<string>)
    requires NoDup(list)
    ensures |set s | s in list| == |list|
    decreases list
  {
    if list != [] {
      DistinctCount(list[1..]);
      assert (set s | s in list) == {list[0]} + set s | s in list[1..];
    }
  }

  lemma {:induction false} ListingLength(rows: Rows, list: seq<string>)
    requires IsListing(rows, list)
    ensures |list| == |rows|
  {
    var keys := set s | s in list;
    assert keys == rows.Keys;
    DistinctCount(list);
    assert |rows.Keys| == |rows|;
  }

  class SignatureTable {
    var rows: Rows

    constructor ()
      ensures rows == map[]
    {
      rows := map[];
    }

    method Highest() returns (n: nat)
      ensures n == MaxSeq(rows)
    {
      n := 0;
      var todo := rows.Keys;
      while todo != {}
        invariant todo <= rows.Keys && (n == 0 || exists s :: s in rows && rows[s] == n)
        invariant forall s :: s in rows ==> s in todo || rows[s] <= n
      {
        var s :| s in todo;
        todo, n := todo - {s}, Max(n, rows[s]);
      }
    }

    method AppendThreadSignatures(added: seq<string>)
      modifies this
      ensures rows == Appended(old(rows), added)
    {
      if |added| == 0 {
        return;
      }
      var last := Highest();
      var nextSeq := last;
      for k := 0 to |added|
        invariant nextSeq == last + k && Inserted(rows, added[k..], nextSeq) == Inserted(old(rows), added, last)
      {
        assert added[k..][1..] == added[k + 1..];
        nextSeq := nextSeq + 1;
        if added[k] !in rows {
          rows := rows[added[k] := nextSeq];
        }
      }
      assert added[|added|..] == [];
      rows := Kept(rows);
    }

    method LoadThreadSignatures() returns (signatures: seq<string>)
      requires exists list :: IsListing(rows, list)
      ensures IsListing(rows, signatures)
    {
      signatures := [];
      ghost var list :| IsListing(rows, list);
      ListingLength(rows, list);
      while |signatures| < |rows|
        invariant |signatures| <= |rows| == |list| && signatures == list[..|signatures|]
      {
        var s := Lowest(signatures, list);
        signatures := signatures + [s];
      }
      assert list[..|list|] == list;
    }

    /** The row with the lowest number among those not listed yet. */
    method Lowest(taken: seq<string>, ghost list: seq<string>) returns (s: string)
      requires IsListing(rows, list) && |taken| < |list| && taken == list[..|taken|]
      ensures s == list[|taken|]
    {
      NextListed(rows, list, |taken|);
      s :| s in rows && s !in taken && forall u :: u in rows && u !in taken ==> rows[s] <= rows[u];
    }
  }

  // ----- The table stands for the list -----

  lemma SameNext(rows: Rows, list: seq<string>, other: seq<string>, n: nat)
    requires IsListing(rows, list) && IsListing(rows, other) && n < |list| == |other| && list[..n] == other[..n]
    ensures list[n] == other[n]
  {
    NextListed(rows, list, n);
    NextListed(rows, other, n);
    assert list[n] in rows && other[n] in rows;
  }

  lemma {:induction false} SamePrefix(rows: Rows, list: seq<string>, other: seq<string>, n: nat)
    requires IsListing(rows, list) && IsListing(rows, other) && n <= |list| == |other|
    ensures list[..n] == other[..n]
    decreases n
  {
    if n > 0 {
      SamePrefix(rows, list, other, n - 1);
      SameNext(rows, list, other, n - 1);
      assert list[..n] == list[..n - 1] + [list[n - 1]];
      assert other[..n] == other[..n - 1] + [other[n - 1]];
    }
  }

  /** There is one listing only. */
  lemma ListingIsUnique(rows: Rows, list: seq<string>, other: seq<string>)
    requires IsListing(rows, list) && IsListing(rows, other)
    ensures list == other
  {
    ListingLength(rows, list);
    ListingLength(rows, other);
    SamePrefix(rows, list, other, |list|);
  }

  /** Inserting into the table is merging into the list, duplicates and gaps in the numbers included. */
  lemma {:induction false} InsertedIsMerged(rows: Rows, list: seq<string>, added: seq<string>, last: nat)
    requires IsListing(rows, list) && forall s :: s in rows ==> rows[s] <= last
    ensures IsListing(Inserted(rows, added, last), Merged(list, added))
    decreases added
  {
    if added != [] {
      var s := added[0];
      if s in rows {
        InsertedIsMerged(rows, list, added[1..], last + 1);
      } else {
        var more, longer := rows[s := last + 1], list + [s];
        forall i, j | 0 <= i < j < |longer| ensures more[longer[i]] < more[longer[j]] {
          assert longer[i] in list;
        }
        InsertedIsMerged(more, longer, added[1..], last + 1);
      }
    }
  }

  lemma NewerAre(rows: Rows, list: seq<string>, i: nat)
    requires IsListing(rows, list) && i < |list|
    ensures |Newer(rows, list[i])| == |list| - 1 - i
  {
    var after := list[i + 1..];
    DistinctCount(after);
    assert Newer(rows, list[i]) == set u | u in after by {
      forall u | u in after ensures u in Newer(rows, list[i]) {
        var k :| 0 <= k < |after| && after[k] == u;
        assert list[i + 1 + k] == u && u in list;
      }
      forall u | u in Newer(rows, list[i]) ensures u in after {
        var k :| 0 <= k < |list| && list[k] == u;
        assert k > i && after[k - i - 1] == u;
      }
    }
  }

  lemma KeptAt(rows: Rows, list: seq<string>, i: nat)
    requires IsListing(rows, list) && i < |list|
    ensures list[i] in Kept(rows) <==> i >= |list| - MAX_THREAD_SIGNATURES
  {
    assert list[i] in list;
    NewerAre(rows, list, i);
  }

  lemma TailIs(list: seq<string>, from: nat, kept: set<string>)
    requires from <= |list| && forall s :: s in kept ==> s in list
    requires forall i :: 0 <= i < |list| ==> (list[i] in kept <==> i >= from)
    ensures forall s :: s in list[from..] <==> s in kept
  {
    forall s | s in kept ensures s in list[from..] {
      var i :| 0 <= i < |list| && list[i] == s;
      assert list[from..][i - from] == s;
    }
    forall s | s in list[from..] ensures s in kept {
      var k :| 0 <= k < |list| - from && list[from..][k] == s;
      assert list[from + k] == s;
    }
  }

  lemma KeptNames(rows: Rows, list: seq<string>)
    requires IsListing(rows, list)
    ensures forall s :: s in Trimmed(list) <==> s in Kept(rows)
  {
    var from := |list| - |Trimmed(list)|;
    forall i | 0 <= i < |list| ensures list[i] in Kept(rows).Keys <==> i >= from {
      KeptAt(rows, list, i);
    }
    TailIs(list, from, Kept(rows).Keys);
  }

  /** Keeping the rows with the highest numbers is keeping the end of the list. */
  lemma KeptIsTrimmed(rows: Rows, list: seq<string>)
    requires IsListing(rows, list)
    ensures IsListing(Kept(rows), Trimmed(list))
  {
    KeptNames(rows, list);
    var kept, trimmed := Kept(rows), Trimmed(list);
    forall i, j | 0 <= i < j < |trimmed| ensures kept[trimmed[i]] < kept[trimmed[j]] {
      assert trimmed[i] in trimmed && trimmed[j] in trimmed;
      var from := |list| - |trimmed|;
      assert rows[list[from + i]] < rows[list[from + j]];
    }
  }

  /** One append to the table is one merge into the list it stands for. */
  lemma AppendIsMerge(rows: Rows, list: seq<string>, added: seq<string>)
    requires IsListing(rows, list) && |list| <= MAX_THREAD_SIGNATURES
    ensures IsListing(Appended(rows, added), MergedAndTrimmed(list, added))
    ensures |Appended(rows, added)| <= MAX_THREAD_SIGNATURES
  {
    InsertedIsMerged(rows, list, added, MaxSeq(rows));
    if added != [] {
      KeptIsTrimmed(Inserted(rows, added, MaxSeq(rows)), Merged(list, added));
    }
    ListingLength(Appended(rows, added), MergedAndTrimmed(list, added));
  }

  ghost function AppendedAll(rows: Rows, batches: seq<seq<string>>): Rows
    decreases batches
  {
    if batches == [] then rows else AppendedAll(Appended(rows, batches[0]), batches[1..])
  }

  function MergedAll(list: seq<string>, batches: seq<seq<string>>): seq<string>
    decreases batches
  {
    if batches == [] then list else MergedAll(MergedAndTrimmed(list, batches[0]), batches[1..])
  }

  /** After any run of appends, loading gives what merging the same batches into the earlier load gives. */
  lemma {:induction false} TableRefinesList(rows: Rows, list: seq<string>, batches: seq<seq<string>>)
    requires IsListing(rows, list) && |list| <= MAX_THREAD_SIGNATURES
    ensures IsListing(AppendedAll(rows, batches), MergedAll(list, batches))
    ensures |AppendedAll(rows, batches)| <= MAX_THREAD_SIGNATURES
    decreases batches
  {
    if batches == [] {
      ListingLength(rows, list);
    } else {
      AppendIsMerge(rows, list, batches[0]);
      TableRefinesList(Appended(rows, batches[0]), MergedAndTrimmed(list, batches[0]), batches[1..]);
    }
  }
}
