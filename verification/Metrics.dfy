/** Counting rows by overall status, as `GET /metrics` reports it. */
module Metrics {
  import opened Statuses
  import opened Traces

  datatype NotificationMetrics =
    NotificationMetrics(totalSent: nat, totalSuccess: nat, totalFailed: nat, byStatus: map<string, nat>)

  function Bucket(rows: map<Id, Row>, status: string): set<Id> {
    set id | id in rows && rows[id].status == status
  }

  function Count(rows: map<Id, Row>, status: string): nat {
    |Bucket(rows, status)|
  }

  /** What `SELECT status, COUNT(*) ... GROUP BY status` may return: every occurring status once,
      in any order, with the number of its rows. */
  ghost predicate IsGroupBy(results: seq<(string, nat)>, rows: map<Id, Row>) {
    && (forall i, j :: 0 <= i < j < |results| ==> results[i].0 != results[j].0)
    && (forall i :: 0 <= i < |results| ==> results[i].1 == Count(rows, results[i].0) && results[i].1 > 0)
    && (forall id :: id in rows ==> exists i :: 0 <= i < |results| && results[i].0 == rows[id].status)
  }

  predicate HasGroup(results: seq<(string, nat)>, status: string) {
    exists i :: 0 <= i < |results| && results[i].0 == status
  }

  /** One group for each of the given statuses, all of them in use. */
  lemma {:induction false} GroupsFor(rows: map<Id, Row>, todo: set<string>) returns (results: seq<(string, nat)>)
    requires forall s :: s in todo ==> Bucket(rows, s) != {}
    ensures forall i, j :: 0 <= i < j < |results| ==> results[i].0 != results[j].0
    ensures forall i :: 0 <= i < |results| ==>
              results[i].0 in todo && results[i].1 == Count(rows, results[i].0) && results[i].1 > 0
    ensures forall s :: s in todo ==> HasGroup(results, s)
  {
    if todo == {} {
      results := [];
    } else {
      var s :| s in todo;
      var rest := GroupsFor(rows, todo - {s});
      results := rest + [(s, Count(rows, s))];
      forall t | t in todo ensures HasGroup(results, t) {
        if t == s {
          assert results[|rest|].0 == s;
        } else {
          assert HasGroup(rest, t);
          var i :| 0 <= i < |rest| && rest[i].0 == t;
          assert results[i].0 == t;
        }
      }
    }
  }

  /** Every table has such a result, so nothing below is said of no table at all. */
  lemma GroupByExists(rows: map<Id, Row>)
    ensures exists results :: IsGroupBy(results, rows)
  {
    var all := set id | id in rows :: rows[id].status;
    forall s | s in all ensures Bucket(rows, s) != {} {
      var id :| id in rows && rows[id].status == s;
      assert id in Bucket(rows, s);
    }
    var results := GroupsFor(rows, all);
    forall id | id in rows ensures exists i :: 0 <= i < |results| && results[i].0 == rows[id].status {
      assert HasGroup(results, rows[id].status);
    }
    assert IsGroupBy(results, rows);
  }

  /** The rows whose status is among the first `n` groups. */
  ghost function Seen(results: seq<(string, nat)>, n: nat, rows: map<Id, Row>): set<Id>
    requires n <= |results|
  {
    set id | id in rows && exists i :: 0 <= i < n && results[i].0 == rows[id].status
  }

  lemma SeenNone(results: seq<(string, nat)>, rows: map<Id, Row>)
    ensures Seen(results, 0, rows) == {}
  {
  }

  lemma SeenNext(results: seq<(string, nat)>, n: nat, rows: map<Id, Row>)
    requires IsGroupBy(results, rows) && n < |results|
    ensures Seen(results, n + 1, rows) == Seen(results, n, rows) + Bucket(rows, results[n].0)
    ensures Seen(results, n, rows) !! Bucket(rows, results[n].0)
  {
  }

  lemma SeenGrows(results: seq<(string, nat)>, n: nat, rows: map<Id, Row>)
    requires IsGroupBy(results, rows) && n < |results|
    ensures |Seen(results, n + 1, rows)| == |Seen(results, n, rows)| + results[n].1
  {
    SeenNext(results, n, rows);
  }

  /** The rows counted as a success or failure: those whose status `d` reads as `word`. */
  ghost function Reading(d: Dialect, rows: map<Id, Row>, word: string): set<Id> {
    set id | id in rows && Is(d, rows[id].status, word)
  }

  ghost function SizeRead(d: Dialect, results: seq<(string, nat)>, n: nat, rows: map<Id, Row>, word: string): nat
    requires n <= |results|
  {
    |Reading(d, rows, word) * Seen(results, n, rows)|
  }

  lemma SizeReadNext(d: Dialect, results: seq<(string, nat)>, n: nat, rows: map<Id, Row>, word: string)
    requires IsGroupBy(results, rows) && n < |results|
    ensures SizeRead(d, results, n + 1, rows, word) ==
            SizeRead(d, results, n, rows, word) + if Is(d, results[n].0, word) then results[n].1 else 0
  {
    SeenNext(results, n, rows);
    BucketReadsAlike(d, rows, results[n].0, word);
    DisjointParts(Reading(d, rows, word), Seen(results, n, rows), Bucket(rows, results[n].0));
  }

  lemma BucketReadsAlike(d: Dialect, rows: map<Id, Row>, status: string, word: string)
    ensures Reading(d, rows, word) * Bucket(rows, status) == if Is(d, status, word) then Bucket(rows, status) else {}
  {
  }

  lemma DisjointParts(all: set<Id>, s: set<Id>, t: set<Id>)
    requires s !! t
    ensures |all * (s + t)| == |all * s| + |all * t|
  {
    assert all * (s + t) == all * s + all * t;
  }

  // ---------------------------------------------------------------- the sums of the metrics loop

  function Sum(results: seq<(string, nat)>, n: nat): nat
    requires n <= |results|
  {
    if n == 0 then 0 else Sum(results, n - 1) + results[n - 1].1
  }

  function SumOf(d: Dialect, results: seq<(string, nat)>, n: nat, word: string): nat
    requires n <= |results|
  {
    if n == 0 then 0
    else SumOf(d, results, n - 1, word) + if Is(d, results[n - 1].0, word) then results[n - 1].1 else 0
  }

  function Counts(results: seq<(string, nat)>, n: nat): map<string, nat>
    requires n <= |results|
  {
    if n == 0 then map[] else Counts(results, n - 1)[results[n - 1].0 := results[n - 1].1]
  }

  lemma {:induction false} SumIsSeen(results: seq<(string, nat)>, n: nat, rows: map<Id, Row>)
    requires n <= |results|
    requires forall k :: 0 <= k < |results| ==> |Seen(results, k + 1, rows)| == |Seen(results, k, rows)| + results[k].1
    ensures Sum(results, n) == |Seen(results, n, rows)|
  {
    if n == 0 {
      SeenNone(results, rows);
    } else {
      SumIsSeen(results, n - 1, rows);
      assert results[n - 1] == results[n - 1];
    }
  }

  /** The groups add up to the number of rows. */
  lemma SumIsSize(results: seq<(string, nat)>, rows: map<Id, Row>)
    requires IsGroupBy(results, rows)
    ensures Sum(results, |results|) == |rows|
  {
    forall k | 0 <= k < |results|
      ensures |Seen(results, k + 1, rows)| == |Seen(results, k, rows)| + results[k].1
    {
      SeenGrows(results, k, rows);
    }
    SumIsSeen(results, |results|, rows);
    SeenAll(results, rows);
    assert |rows| == |rows.Keys|;
  }

  lemma SumOfNext(d: Dialect, results: seq<(string, nat)>, n: nat, rows: map<Id, Row>, word: string)
    requires IsGroupBy(results, rows) && n < |results|
    requires SumOf(d, results, n, word) == SizeRead(d, results, n, rows, word)
    ensures SumOf(d, results, n + 1, word) == SizeRead(d, results, n + 1, rows, word)
  {
    SizeReadNext(d, results, n, rows, word);
  }

  lemma SumOfNone(d: Dialect, results: seq<(string, nat)>, rows: map<Id, Row>, word: string)
    ensures SumOf(d, results, 0, word) == SizeRead(d, results, 0, rows, word)
  {
    SeenNone(results, rows);
  }

  lemma SumOfIsSeen(d: Dialect, results: seq<(string, nat)>, rows: map<Id, Row>, word: string)
    requires IsGroupBy(results, rows)
    ensures SumOf(d, results, |results|, word) == SizeRead(d, results, |results|, rows, word)
  {
    SumOfNone(d, results, rows, word);
    for n := 0 to |results|
      invariant SumOf(d, results, n, word) == SizeRead(d, results, n, rows, word)
    {
      SumOfNext(d, results, n, rows, word);
    }
  }

  /** The groups whose status reads as `word` add up to the rows whose status does. */
  lemma SumOfIsSize(d: Dialect, results: seq<(string, nat)>, rows: map<Id, Row>, word: string)
    requires IsGroupBy(results, rows)
    ensures SumOf(d, results, |results|, word) == |Reading(d, rows, word)|
  {
    SumOfIsSeen(d, results, rows, word);
    ReadingIsSeen(d, results, rows, word);
  }

  lemma SeenAll(results: seq<(string, nat)>, rows: map<Id, Row>)
    requires IsGroupBy(results, rows)
    ensures Seen(results, |results|, rows) == rows.Keys
  {
  }

  lemma ReadingIsSeen(d: Dialect, results: seq<(string, nat)>, rows: map<Id, Row>, word: string)
    requires IsGroupBy(results, rows)
    ensures SizeRead(d, results, |results|, rows, word) == |Reading(d, rows, word)|
  {
    SeenAll(results, rows);
    assert Reading(d, rows, word) * rows.Keys == Reading(d, rows, word);
  }

  lemma {:induction false} CountsAt(results: seq<(string, nat)>, n: nat, s: string)
    requires n <= |results|
    requires forall i, j :: 0 <= i < j < |results| ==> results[i].0 != results[j].0
    ensures s in Counts(results, n) <==> exists i :: 0 <= i < n && results[i].0 == s
    ensures forall i :: 0 <= i < n && results[i].0 == s ==> Counts(results, n)[s] == results[i].1
  {
    if n > 0 {
      CountsAt(results, n - 1, s);
    }
  }

  /** The by-status map lists exactly the non-empty buckets, with their sizes. */
  lemma CountsAreBuckets(results: seq<(string, nat)>, rows: map<Id, Row>)
    requires IsGroupBy(results, rows)
    ensures forall s :: s in Counts(results, |results|) <==> Bucket(rows, s) != {}
    ensures forall s :: s in Counts(results, |results|) ==> Counts(results, |results|)[s] == Count(rows, s)
  {
    forall s
      ensures s in Counts(results, |results|) <==> Bucket(rows, s) != {}
      ensures s in Counts(results, |results|) ==> Counts(results, |results|)[s] == Count(rows, s)
    {
      CountsAt(results, |results|, s);
      if Bucket(rows, s) != {} {
        var id :| id in Bucket(rows, s);
        assert id in rows;
      }
    }
  }

  /** Every update moves exactly one unit between two buckets, possibly the same one, or changes
      nothing when the row does not exist. */
  lemma UpdateMovesOneUnit(agg: Aggregator, rows: map<Id, Row>, u: Update, status: string)
    ensures var rows' := Apply(agg, rows, u);
            && |rows'| == |rows|
            && (u.id !in rows ==> rows' == rows)
            && (u.id in rows ==>
                  Count(rows', status) + (if rows[u.id].status == status then 1 else 0) ==
                  Count(rows, status) + (if rows'[u.id].status == status then 1 else 0))
  {
    if u.id in rows {
      ReplaceRow(rows, u.id, Touch(agg, rows[u.id], u.channel, u.status), status);
    }
  }

  lemma ReplaceRow(rows: map<Id, Row>, id: Id, r: Row, status: string)
    requires id in rows
    ensures var rows' := rows[id := r];
            && |rows'| == |rows|
            && Count(rows', status) + (if rows[id].status == status then 1 else 0) ==
               Count(rows, status) + (if r.status == status then 1 else 0)
  {
    var rows' := rows[id := r];
    assert rows'.Keys == rows.Keys;
    assert |rows'| == |rows'.Keys| == |rows|;
    assert rows'[id] == r && forall k :: k in rows && k != id ==> rows'[k] == rows[k];
    var a, b := Bucket(rows, status), Bucket(rows', status);
    assert a - {id} == b - {id} by {
      forall k ensures k in a - {id} <==> k in b - {id} {
      }
    }
    Without(a, id);
    Without(b, id);
  }

  lemma Without(s: set<Id>, id: Id)
    ensures |s| == |s - {id}| + if id in s then 1 else 0
  {
  }

  /** The statuses the code ever writes to a row as a whole. FAILED is not among them. */
  predicate Overall(status: string) {
    status == ENQUEUED || status == PROCESSING || status == COMPLETED || status == PARTIAL_FAILURE
  }

  lemma Partition(rows: map<Id, Row>)
    requires forall id :: id in rows ==> Overall(rows[id].status)
    ensures Count(rows, ENQUEUED) + Count(rows, PROCESSING) + Count(rows, COMPLETED) +
            Count(rows, PARTIAL_FAILURE) == |rows|
  {
    var a, b := Bucket(rows, ENQUEUED), Bucket(rows, PROCESSING);
    var c, e := Bucket(rows, COMPLETED), Bucket(rows, PARTIAL_FAILURE);
    assert |a + b| == |a| + |b|;
    assert |c + e| == |c| + |e|;
    assert |(a + b) + (c + e)| == |a + b| + |c + e|;
    assert (a + b) + (c + e) == rows.Keys;
    assert |rows| == |rows.Keys|;
  }

  /** When every row carries one of the four overall statuses, the four counts add up to the number
      of rows and no implementation counts a failure. */
  lemma FourBucketsPartition(d: Dialect, rows: map<Id, Row>)
    requires forall id :: id in rows ==> Overall(rows[id].status)
    ensures Count(rows, ENQUEUED) + Count(rows, PROCESSING) + Count(rows, COMPLETED) +
            Count(rows, PARTIAL_FAILURE) == |rows|
    ensures Reading(d, rows, FAILED) == {}
    ensures Reading(d, rows, COMPLETED) == Bucket(rows, COMPLETED)
  {
    Partition(rows);
    forall id | id in rows ensures id !in Reading(d, rows, FAILED) {
      OverallIsLiteral(d, rows[id].status);
    }
    forall id | id in rows ensures id in Reading(d, rows, COMPLETED) <==> id in Bucket(rows, COMPLETED) {
      OverallIsLiteral(d, rows[id].status);
    }
  }

  lemma OverallIsLiteral(d: Dialect, s: string)
    requires Overall(s)
    ensures !Is(d, s, FAILED)
    ensures Is(d, s, COMPLETED) <==> s == COMPLETED
  {
    PlainIsLiteral(d, s);
  }
}
