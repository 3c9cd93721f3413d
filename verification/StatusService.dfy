/** The status service of each implementation, over a table held as a map of rows. */
module StatusServices {
  import opened Statuses
  import opened Traces
  import opened Metrics

  /** The flag loop of TypeScript and Go. The iteration order over the map is arbitrary. */
  method AggregateByFlags(d: Dialect, statuses: map<string, string>) returns (status: string)
    ensures status == Agg(d, statuses)
  {
    var allCompleted, anyFailed := true, false;
    var left := statuses.Keys;
    while left != {}
      invariant left <= statuses.Keys
      invariant allCompleted <==> forall c :: c in statuses && c !in left ==> Is(d, statuses[c], COMPLETED)
      invariant anyFailed <==> exists c :: c in statuses && c !in left && Is(d, statuses[c], FAILED)
      decreases left
    {
      var c :| c in left;
      if !Is(d, statuses[c], COMPLETED) {
        allCompleted := false;
      }
      if Is(d, statuses[c], FAILED) {
        anyFailed := true;
      }
      left := left - {c};
    }
    status := if allCompleted then COMPLETED else if anyFailed then PARTIAL_FAILURE else PROCESSING;
  }

  class StatusService {
    const dialect: Dialect
    const agg: Aggregator
    var rows: map<Id, Row>

    constructor (d: Dialect)
      ensures dialect == d && rows == map[] && Valid()
    {
      dialect, agg := d, AggBy(d);
      rows := map[];
    }

    /** The service aggregates as its dialect does. */
    ghost predicate Valid() {
      forall m {:trigger Agg(dialect, m)} :: agg(m) == Agg(dialect, m)
    }

    /** Rust and Go insert, and fail on a key already present; TypeScript and Java save over it. */
    method CreateInitialStatus(id: Id, channels: seq<string>) returns (ok: bool)
      modifies this
      ensures ok <==> !(id in old(rows) && (dialect.Rust? || dialect.Go?))
      ensures rows == if ok then old(rows)[id := Initial(ChannelSet(channels))] else old(rows)
      ensures ok ==> id in rows && rows[id].status == "ENQUEUED" && rows[id].channels.Keys == set c | c in channels
      ensures ok ==> forall c :: c in channels ==> rows[id].channels[c] == "PENDING"
    {
      var statuses: map<string, string> := map[];
      for i := 0 to |channels|
        invariant statuses == Initial(ChannelSet(channels[..i])).channels
        invariant rows == old(rows)
      {
        assert ChannelSet(channels[..i + 1]) == ChannelSet(channels[..i]) + {channels[i]} by {
          assert channels[..i + 1] == channels[..i] + [channels[i]];
        }
        statuses := statuses[channels[i] := PENDING];
      }
      assert channels[..|channels|] == channels;
      if id in rows && (dialect.Rust? || dialect.Go?) {
        return false;
      }
      rows := rows[id := Row(ENQUEUED, statuses)];
      ok := true;
    }

    method GetStatus(id: Id) returns (row: Option<Row>)
      ensures row == if id in rows then Some(rows[id]) else None
    {
      row := if id in rows then Some(rows[id]) else None;
    }

    /** `UPDATE ... WHERE notification_id`, or `Save` of a row that was read before. */
    method SaveRow(id: Id, row: Row)
      requires id in rows
      modifies this
      ensures rows == old(rows)[id := row]
    {
      rows := rows[id := row];
    }

    /** Read the row, write one key, aggregate, write the whole row. A missing row is an early
        return: an error in Go, silence elsewhere. */
    method UpdateChannelStatus(id: Id, channel: string, newStatus: string) returns (found: bool)
      requires Valid()
      modifies this
      ensures found <==> id in old(rows)
      ensures rows == Apply(agg, old(rows), Update(id, channel, newStatus))
    {
      var current := GetStatus(id);
      if current.None? {
        return false;
      }
      var statuses := current.value.channels[channel := newStatus];
      var overall: string;
      if dialect.TypeScript? || dialect.Go? {
        overall := AggregateByFlags(dialect, statuses);
      } else {
        overall := Agg(dialect, statuses);
      }
      SaveRow(id, Row(overall, statuses));
      found := true;
    }

    /** The metrics loop over the groups the database returns. */
    method GetMetrics(results: seq<(string, nat)>) returns (m: NotificationMetrics)
      requires IsGroupBy(results, rows)
      ensures m.totalSent == |rows|
      ensures m.totalSuccess == |Reading(dialect, rows, COMPLETED)|
      ensures m.totalFailed == |Reading(dialect, rows, FAILED)|
      ensures forall s :: s in m.byStatus <==> Bucket(rows, s) != {}
      ensures forall s :: s in m.byStatus ==> m.byStatus[s] == Count(rows, s)
    {
      var counts: map<string, nat> := map[];
      var total, success, failed: nat := 0, 0, 0;
      for i := 0 to |results|
        invariant total == Sum(results, i)
        invariant success == SumOf(dialect, results, i, COMPLETED)
        invariant failed == SumOf(dialect, results, i, FAILED)
        invariant counts == Counts(results, i)
      {
        var (status, count) := results[i];
        counts := counts[status := count];
        total := total + count;
        NotBoth(dialect, status);
        if Is(dialect, status, COMPLETED) {
          success := success + count;
        } else if Is(dialect, status, FAILED) {
          failed := failed + count;
        }
      }
      SumIsSize(results, rows);
      SumOfIsSize(dialect, results, rows, COMPLETED);
      SumOfIsSize(dialect, results, rows, FAILED);
      CountsAreBuckets(results, rows);
      m := NotificationMetrics(total, success, failed, counts);
    }
  }

  lemma NotBoth(d: Dialect, s: string)
    ensures !(Is(d, s, COMPLETED) && Is(d, s, FAILED))
  {
  }
}
