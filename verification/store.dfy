/**
 The record table kept by the store: PR rows keyed by the PR number
 zero-padded to eight digits, kept in ascending key order. Reading the store
 keys every stored row (a later row with the same key replaces an earlier
 one) and sorts; merging a snapshot overwrites or adds the row of every
 incoming PR and sorts again. File reading and writing are not modelled: the
 stored rows and the snapshot are given as sequences.

 The table is an association list with strictly increasing keys; inserting
 each row at its place in key order yields the same sequence as filling a
 dictionary and then sorting its items, because keys are unique.
 */
module Store {
  import opened Records
  import opened Strings

  const KeyWidth: nat := 8

  /** The store key of a PR: its number in decimal, zero-padded to eight
      characters. The key reads back as the number, so distinct numbers
      never share a key. */
  function Key(number: nat): (k: string)
    ensures AllDigits(k)
    ensures DigitsValue(k) == number
    ensures |k| == if |Decimal(number)| >= KeyWidth then |Decimal(number)| else KeyWidth
  {
    var d := Decimal(number);
    DecimalRoundTrip(number);
    if |d| >= KeyWidth then
      assert ZFill(d, KeyWidth) == d;
      ZFill(d, KeyWidth)
    else
      assert ZFill(d, KeyWidth) == Zeros(KeyWidth - |d|) + d;
      PaddedValue(KeyWidth - |d|, d);
      ZFill(d, KeyWidth)
  }

  /** Sorting by key sorts by PR number, for numbers that fit in eight
      digits. */
  lemma KeyOrderIsNumberOrder(n: nat, m: nat)
    requires n < 100000000 && m < 100000000
    ensures n < m <==> StrLess(Key(n), Key(m))
  {
    assert Pow10(8) == 100000000;
    DecimalLength(n, 8);
    DecimalLength(m, 8);
    DigitOrder(Key(n), Key(m));
  }

  // ---------------------------------------------------------------------
  // Building a row from a snapshot entry

  /** One PR as the ingest snapshot describes it. */
  datatype SnapshotPr = SnapshotPr(
    number: nat,
    state: string,
    closed: string,
    isDraft: string,
    title: string,
    baseRefName: string,
    createdAt: int,
    updatedAt: int,
    mergedAt: int,
    closedAt: int,
    authorLogin: string,
    assigneeLogins: seq<string>,
    labelNames: seq<string>,
    url: string)

  /** The store row for a snapshot entry: fields copied, the base branch
      stored as `branch`, the author's login as `author`, and the assignee
      logins and label names comma-joined. */
  function ToRow(pr: SnapshotPr): (row: PullRequest)
    ensures row == PullRequest(
              pr.number, pr.state, pr.closed, pr.isDraft, pr.title, pr.baseRefName,
              pr.createdAt, pr.updatedAt, pr.mergedAt, pr.closedAt, pr.authorLogin,
              CommaJoin(pr.assigneeLogins), CommaJoin(pr.labelNames), pr.url)
  {
    PullRequest(
      pr.number, pr.state, pr.closed, pr.isDraft, pr.title, pr.baseRefName,
      pr.createdAt, pr.updatedAt, pr.mergedAt, pr.closedAt, pr.authorLogin,
      JoinNames(pr.assigneeLogins), JoinNames(pr.labelNames), pr.url)
  }

  function Rows(batch: seq<SnapshotPr>): (rows: seq<PullRequest>)
    ensures |rows| == |batch|
    ensures forall i :: 0 <= i < |batch| ==> rows[i] == ToRow(batch[i])
  {
    seq(|batch|, i requires 0 <= i < |batch| => ToRow(batch[i]))
  }

  // ---------------------------------------------------------------------
  // The table

  type Table = seq<(string, PullRequest)>

  /** Keys strictly ascending: sorted and free of duplicates. */
  predicate Sorted(t: Table) {
    forall i, j :: 0 <= i < j < |t| ==> StrLess(t[i].0, t[j].0)
  }

  /** Every row sits under the key of its own number. */
  predicate Keyed(t: Table) {
    forall i :: 0 <= i < |t| ==> t[i].0 == Key(t[i].1.number)
  }

  function KeysOf(t: Table): set<string> {
    set i | 0 <= i < |t| :: t[i].0
  }

  /** The row stored under `k`, if any. */
  function Lookup(t: Table, k: string): (r: Option<PullRequest>)
    ensures r.Some? <==> k in KeysOf(t)
    ensures r.Some? ==> (k, r.value) in t
  {
    if |t| == 0 then None
    else if t[0].0 == k then Some(t[0].1)
    else
      KeysOfCons(t);
      Lookup(t[1..], k)
  }

  lemma KeysOfCons(t: Table)
    requires |t| > 0
    ensures KeysOf(t) == {t[0].0} + KeysOf(t[1..])
  {
    forall x | x in KeysOf(t)
      ensures x in {t[0].0} + KeysOf(t[1..])
    {
      var i :| 0 <= i < |t| && t[i].0 == x;
      if i > 0 {
        assert t[1..][i - 1].0 == x;
      }
    }
  }

  lemma SortedTail(t: Table)
    requires Sorted(t) && |t| > 0
    ensures Sorted(t[1..])
    ensures t[0].0 !in KeysOf(t[1..])
  {

  }

  /** In a sorted table the row at each position is the one found under its key. */
  lemma {:induction false} LookupAt(t: Table, i: int)
    requires Sorted(t) && 0 <= i < |t|
    ensures Lookup(t, t[i].0) == Some(t[i].1)
  {
    if i > 0 {
      SortedTail(t);
      assert t[0].0 != t[i].0 by {
        assert StrLess(t[0].0, t[i].0);
        StrLessIrreflexive(t[0].0);
      }
      LookupAt(t[1..], i - 1);
    }
  }

  /** A key below the head of a sorted table is below every key in it. */
  lemma BelowHead(t: Table, k: string)
    requires Sorted(t) && |t| > 0 && StrLess(k, t[0].0)
    ensures forall j :: 0 <= j < |t| ==> StrLess(k, t[j].0)
  {
    forall j | 0 < j < |t| {
      StrLessTransitive(k, t[0].0, t[j].0);
    }
  }

  /** Store `row` under `k`: replace the row already there, or insert it at
      its place in key order. No other key changes. */
  function Upsert(t: Table, k: string, row: PullRequest): (r: Table)
    requires Sorted(t)
    ensures Sorted(r)
    ensures KeysOf(r) == KeysOf(t) + {k}
    ensures Lookup(r, k) == Some(row)
    ensures forall k' {:trigger Lookup(r, k')} :: k' != k ==> Lookup(r, k') == Lookup(t, k')
    ensures Keyed(t) && k == Key(row.number) ==> Keyed(r)
  {
    if |t| == 0 then
      KeysOfCons([(k, row)]);
      assert [(k, row)][1..] == t;
      assert KeysOf(t) == {};
      [(k, row)]
    else if t[0].0 == k then
      SortedTail(t);
      KeysOfCons(t);
      KeysOfCons([(k, row)] + t[1..]);
      assert ([(k, row)] + t[1..])[1..] == t[1..];
      [(k, row)] + t[1..]
    else if StrLess(k, t[0].0) then
      BelowHead(t, k);
      KeysOfCons([(k, row)] + t);
      assert ([(k, row)] + t)[1..] == t;
      [(k, row)] + t
    else
      StrLessTotal(k, t[0].0);
      SortedTail(t);
      var rest := Upsert(t[1..], k, row);
      HeadBelowRest(t, k, rest);
      KeysOfCons(t);
      KeysOfCons([t[0]] + rest);
      assert ([t[0]] + rest)[1..] == rest;
      [t[0]] + rest
  }

  lemma HeadBelowRest(t: Table, k: string, rest: Table)
    requires Sorted(t) && |t| > 0 && StrLess(t[0].0, k)
    requires KeysOf(rest) == KeysOf(t[1..]) + {k}
    ensures forall j :: 0 <= j < |rest| ==> StrLess(t[0].0, rest[j].0)
  {
    forall j | 0 <= j < |rest|
      ensures StrLess(t[0].0, rest[j].0)
    {
      assert rest[j].0 in KeysOf(rest);
      if rest[j].0 != k {
        var i :| 0 <= i < |t[1..]| && t[1..][i].0 == rest[j].0;
        assert t[i + 1].0 == rest[j].0;
      }
    }
  }

  /** The last of `rows` whose key is `k`. */
  function LastWithKey(rows: seq<PullRequest>, k: string): Option<PullRequest> {
    if |rows| == 0 then None
    else if Key(rows[|rows| - 1].number) == k then Some(rows[|rows| - 1])
    else LastWithKey(rows[..|rows| - 1], k)
  }

  /** Upsert every row in turn, each under the key of its own number. */
  function UpsertAll(t: Table, rows: seq<PullRequest>): (r: Table)
    requires Sorted(t)
    ensures Sorted(r)
    ensures Keyed(t) ==> Keyed(r)
    ensures forall k {:trigger Lookup(r, k)} :: Lookup(r, k) == if LastWithKey(rows, k).Some? then LastWithKey(rows, k) else Lookup(t, k)
  {
    if |rows| == 0 then t
    else
      var last := rows[|rows| - 1];
      Upsert(UpsertAll(t, rows[..|rows| - 1]), Key(last.number), last)
  }

  // ---------------------------------------------------------------------
  // Reading and merging

  /** Reading the store: every stored row keyed by its number, a later row
      replacing an earlier one with the same key, in ascending key order. */
  function ReadStore(rows: seq<PullRequest>): (t: Table)
    ensures Sorted(t) && Keyed(t)
    ensures forall k {:trigger Lookup(t, k)} :: Lookup(t, k) == LastWithKey(rows, k)
  {
    UpsertAll([], rows)
  }

  /** Merging a snapshot: the row of every incoming PR overwrites or joins
      the table, which stays in ascending key order. */
  function Merge(t: Table, batch: seq<SnapshotPr>): (r: Table)
    requires Sorted(t)
    ensures Sorted(r)
    ensures Keyed(t) ==> Keyed(r)
  {
    UpsertAll(t, Rows(batch))
  }

  /** Updating the store: read the stored rows, then merge the snapshot. */
  function UpdateStore(stored: seq<PullRequest>, batch: seq<SnapshotPr>): (t: Table)
    ensures Sorted(t) && Keyed(t)
    ensures forall k {:trigger Lookup(t, k)} ::
              Lookup(t, k) == if LastWithKey(Rows(batch), k).Some? then LastWithKey(Rows(batch), k) else LastWithKey(stored, k)
  {
    Merge(ReadStore(stored), batch)
  }

  // ---------------------------------------------------------------------
  // Properties of the merge

  lemma {:induction false} LastWithKeyAt(rows: seq<PullRequest>, k: string, i: int)
    requires 0 <= i < |rows| && Key(rows[i].number) == k
    requires forall j :: i < j < |rows| ==> Key(rows[j].number) != k
    ensures LastWithKey(rows, k) == Some(rows[i])
  {
    if i < |rows| - 1 {
      var init := rows[..|rows| - 1];
      LastWithKeyAt(init, k, i);
    }
  }

  lemma {:induction false} LastWithKeyAbsent(rows: seq<PullRequest>, k: string)
    requires forall j :: 0 <= j < |rows| ==> Key(rows[j].number) != k
    ensures LastWithKey(rows, k) == None
  {
    if |rows| > 0 {
      LastWithKeyAbsent(rows[..|rows| - 1], k);
    }
  }

  /** Every incoming PR ends up under its key as the row built from the last
      snapshot entry with its number. */
  lemma {:induction false} MergeOverwrites(t: Table, batch: seq<SnapshotPr>, i: int)
    requires Sorted(t)
    requires 0 <= i < |batch|
    requires forall j :: i < j < |batch| ==> batch[j].number != batch[i].number
    ensures Lookup(Merge(t, batch), Key(batch[i].number)) == Some(ToRow(batch[i]))
  {
    var rows := Rows(batch);
    LastWithKeyAt(rows, Key(batch[i].number), i);
  }

  /** A key no incoming PR maps to keeps its old row (or stays absent). */
  lemma {:induction false} MergeKeepsOthers(t: Table, batch: seq<SnapshotPr>, k: string)
    requires Sorted(t)
    requires forall j :: 0 <= j < |batch| ==> Key(batch[j].number) != k
    ensures Lookup(Merge(t, batch), k) == Lookup(t, k)
  {
    LastWithKeyAbsent(Rows(batch), k);
  }

  /** A sorted table is determined by what it stores under each key. */
  lemma {:induction false} SortedTablesEqual(t1: Table, t2: Table)
    requires Sorted(t1) && Sorted(t2)
    requires forall k :: Lookup(t1, k) == Lookup(t2, k)
    ensures t1 == t2
  {
    if |t1| == 0 && |t2| > 0 {
      LookupAt(t2, 0);
      assert false;
    } else if |t1| > 0 && |t2| == 0 {
      LookupAt(t1, 0);
      assert false;
    } else if |t1| > 0 {
      var k1, k2 := t1[0].0, t2[0].0;
      if k1 != k2 {
        StrLessTotal(k1, k2);
        if StrLess(k1, k2) {
          NotBelowHead(t2, k1);
          LookupAt(t1, 0);
          assert false;
        } else {
          NotBelowHead(t1, k2);
          LookupAt(t2, 0);
          assert false;
        }
      }
      assert Lookup(t1, k1) == Some(t1[0].1) && Lookup(t2, k1) == Some(t2[0].1);
      assert t1[0] == t2[0];
      SortedTail(t1);
      SortedTail(t2);
      forall k
        ensures Lookup(t1[1..], k) == Lookup(t2[1..], k)
      {
        if k != k1 {
          assert Lookup(t1, k) == Lookup(t1[1..], k);
          assert Lookup(t2, k) == Lookup(t2[1..], k);
        }
      }
      SortedTablesEqual(t1[1..], t2[1..]);
      assert t1 == [t1[0]] + t1[1..] && t2 == [t2[0]] + t2[1..];
    }
  }

  /** A key below the head of a sorted table is not stored in it. */
  lemma NotBelowHead(t: Table, k: string)
    requires Sorted(t) && |t| > 0 && StrLess(k, t[0].0)
    ensures k !in KeysOf(t)
  {
    if k in KeysOf(t) {
      var j :| 0 <= j < |t| && t[j].0 == k;
      BelowHead(t, k);
      StrLessIrreflexive(k);
    }
  }

  /** Re-ingesting the same snapshot changes nothing. */
  lemma {:induction false} MergeIdempotent(t: Table, batch: seq<SnapshotPr>)
    requires Sorted(t)
    ensures Merge(Merge(t, batch), batch) == Merge(t, batch)
  {
    SortedTablesEqual(Merge(Merge(t, batch), batch), Merge(t, batch));
  }

  /** The rows of a table, in key order, as they are written out. */
  function Values(t: Table): (rows: seq<PullRequest>)
    ensures |rows| == |t|
    ensures forall i :: 0 <= i < |t| ==> rows[i] == t[i].1
  {
    seq(|t|, i requires 0 <= i < |t| => t[i].1)
  }

  /** Writing a well-formed table out and reading it back gives the same
      table. */
  lemma {:induction false} WriteReadRoundTrip(t: Table)
    requires Sorted(t) && Keyed(t)
    ensures ReadStore(Values(t)) == t
  {
    var rows := Values(t);
    forall k
      ensures Lookup(ReadStore(rows), k) == Lookup(t, k)
    {
      if k in KeysOf(t) {
        var i :| 0 <= i < |t| && t[i].0 == k;
        forall j | i < j < |rows|
          ensures Key(rows[j].number) != k
        {
          assert StrLess(t[i].0, t[j].0);
          StrLessIrreflexive(k);
        }
        LastWithKeyAt(rows, k, i);
        LookupAt(t, i);
      } else {
        LastWithKeyAbsent(rows, k);
      }
    }
    SortedTablesEqual(ReadStore(rows), t);
  }
}
