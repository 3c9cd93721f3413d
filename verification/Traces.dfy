/** Whole status updates applied one after another: what a trace of them leaves in the rows,
    and which changes to a trace go unnoticed. */
module Traces {
  import opened Statuses

  datatype Update = Update(id: Id, channel: string, status: string)

  /** One update: re-aggregate the row, or do nothing when there is no such row. */
  function Apply(agg: Aggregator, rows: map<Id, Row>, u: Update): map<Id, Row> {
    if u.id in rows then rows[u.id := Touch(agg, rows[u.id], u.channel, u.status)] else rows
  }

  function ApplyAll(agg: Aggregator, rows: map<Id, Row>, trace: seq<Update>): map<Id, Row> {
    if trace == [] then rows
    else Apply(agg, ApplyAll(agg, rows, trace[..|trace| - 1]), trace[|trace| - 1])
  }

  lemma ApplyAllSnoc(agg: Aggregator, rows: map<Id, Row>, trace: seq<Update>, u: Update)
    ensures ApplyAll(agg, rows, trace + [u]) == Apply(agg, ApplyAll(agg, rows, trace), u)
  {
  }

  lemma {:induction false} ApplyAllAppend(agg: Aggregator, rows: map<Id, Row>, a: seq<Update>, b: seq<Update>)
    ensures ApplyAll(agg, rows, a + b) == ApplyAll(agg, ApplyAll(agg, rows, a), b)
  {
    if b == [] {
      assert a + b == a;
    } else {
      var b' := b[..|b| - 1];
      ApplyAllAppend(agg, rows, a, b');
      assert a + b == a + b' + [b[|b| - 1]];
      ApplyAllSnoc(agg, rows, a + b', b[|b| - 1]);
    }
  }

  lemma ReplayKeys(agg: Aggregator, rows: map<Id, Row>, trace: seq<Update>)
    ensures ApplyAll(agg, rows, trace).Keys == rows.Keys
  {
  }

  // ---------------------------------------------------------------- closed form

  predicate Hits(trace: seq<Update>, id: Id) {
    exists i :: 0 <= i < |trace| && trace[i].id == id
  }

  /** The status the last write in the trace gives to this channel of this row. */
  function LastWrite(trace: seq<Update>, id: Id, channel: string): Option<string> {
    if trace == [] then None
    else
      var u := trace[|trace| - 1];
      if u.id == id && u.channel == channel then Some(u.status)
      else LastWrite(trace[..|trace| - 1], id, channel)
  }

  function Written(trace: seq<Update>, id: Id): set<string> {
    set i | 0 <= i < |trace| && trace[i].id == id :: trace[i].channel
  }

  lemma WrittenSnoc(trace: seq<Update>, u: Update, id: Id)
    ensures Written(trace + [u], id) == Written(trace, id) + (if u.id == id then {u.channel} else {})
    ensures Hits(trace + [u], id) <==> Hits(trace, id) || u.id == id
  {
    var t := trace + [u];
    assert t[|trace|] == u;
    assert forall i :: 0 <= i < |trace| ==> t[i] == trace[i];
    forall c | c in Written(trace, id) ensures c in Written(t, id) {
      var i :| 0 <= i < |trace| && trace[i].id == id && trace[i].channel == c;
      assert t[i].id == id && t[i].channel == c;
    }
    if Hits(trace, id) {
      var i :| 0 <= i < |trace| && trace[i].id == id;
      assert t[i].id == id;
    }
  }

  lemma LastWriteSnoc(trace: seq<Update>, u: Update, id: Id, channel: string)
    ensures LastWrite(trace + [u], id, channel) ==
            if u.id == id && u.channel == channel then Some(u.status) else LastWrite(trace, id, channel)
  {
  }

  /** LastWrite finds a write exactly for the channels written, and what it finds was written. */
  lemma {:induction false} LastWriteFinds(trace: seq<Update>, id: Id, channel: string)
    ensures LastWrite(trace, id, channel).Some? <==> channel in Written(trace, id)
    ensures LastWrite(trace, id, channel).Some? ==>
              Update(id, channel, LastWrite(trace, id, channel).value) in trace
  {
    if trace != [] {
      var t, u := trace[..|trace| - 1], trace[|trace| - 1];
      assert trace == t + [u];
      LastWriteFinds(t, id, channel);
      LastWriteSnoc(t, u, id, channel);
      WrittenSnoc(t, u, id);
    }
  }

  /** A row after a trace, without replaying it: untouched if never hit; otherwise the last write
      per channel over the old map, and the aggregate of the result. */
  function Settled(agg: Aggregator, r: Row, trace: seq<Update>, id: Id): Row {
    if Hits(trace, id) then
      var m := SettledChannels(r, trace, id);
      Row(agg(m), m)
    else r
  }

  function SettledChannels(r: Row, trace: seq<Update>, id: Id): map<string, string> {
    map c | c in r.channels.Keys + Written(trace, id) :: SettledAt(r, LastWrite(trace, id, c), c)
  }

  function SettledAt(r: Row, write: Option<string>, channel: string): string {
    if write.Some? then write.value else if channel in r.channels then r.channels[channel] else PENDING
  }

  /** Replaying a trace over the store equals the closed form, row by row. */
  lemma {:induction false} ReplayIsSettled(agg: Aggregator, rows: map<Id, Row>, trace: seq<Update>)
    ensures ApplyAll(agg, rows, trace) == map id | id in rows :: Settled(agg, rows[id], trace, id)
  {
    if trace == [] {
    } else {
      var t' := trace[..|trace| - 1];
      var u := trace[|trace| - 1];
      ReplayIsSettled(agg, rows, t');
      forall id | id in rows
        ensures ApplyAll(agg, rows, trace)[id] == Settled(agg, rows[id], trace, id)
      {
        SettledSnoc(agg, rows[id], t', u, id);
        assert trace == t' + [u];
      }
      assert ApplyAll(agg, rows, trace).Keys == rows.Keys;
    }
  }

  /** One channel of one row after a trace. */
  lemma AppliedChannel(agg: Aggregator, rows: map<Id, Row>, trace: seq<Update>, id: Id, c: string)
    requires id in rows
    ensures var r, w := ApplyAll(agg, rows, trace), LastWrite(trace, id, c);
            && id in r
            && (c in r[id].channels <==> w.Some? || c in rows[id].channels)
            && (c in r[id].channels ==> r[id].channels[c] == SettledAt(rows[id], w, c))
  {
  }

  /** The overall status of a row after a trace. */
  lemma AppliedStatus(agg: Aggregator, rows: map<Id, Row>, trace: seq<Update>, id: Id)
    requires id in rows
    ensures var r := ApplyAll(agg, rows, trace);
            && id in r
            && (if Hits(trace, id) then r[id].status == agg(r[id].channels) else r[id] == rows[id])
  {
  }

  lemma SettledSnoc(agg: Aggregator, r: Row, trace: seq<Update>, u: Update, id: Id)
    ensures Settled(agg, r, trace + [u], id) ==
            if u.id == id then Touch(agg, Settled(agg, r, trace, id), u.channel, u.status)
            else Settled(agg, r, trace, id)
  {
    WrittenSnoc(trace, u, id);
    HitsIsWritten(trace, id);
    SettledChannelsSnoc(r, trace, u, id);
    if u.id == id && !Hits(trace, id) {
      UnhitChannels(r, trace, id);
    }
  }

  lemma UnhitChannels(r: Row, trace: seq<Update>, id: Id)
    requires !Hits(trace, id)
    ensures SettledChannels(r, trace, id) == r.channels
  {
    HitsIsWritten(trace, id);
    forall c ensures LastWrite(trace, id, c) == None {
      LastWriteFinds(trace, id, c);
    }
  }

  lemma SettledChannelsSnoc(r: Row, trace: seq<Update>, u: Update, id: Id)
    ensures SettledChannels(r, trace + [u], id) ==
            if u.id == id then SettledChannels(r, trace, id)[u.channel := u.status]
            else SettledChannels(r, trace, id)
  {
    WrittenSnoc(trace, u, id);
    var m, m' := SettledChannels(r, trace, id), SettledChannels(r, trace + [u], id);
    var e := if u.id == id then m[u.channel := u.status] else m;
    assert m'.Keys == e.Keys;
    forall c | c in e ensures m'[c] == e[c] {
      LastWriteSnoc(trace, u, id, c);
    }
  }

  // ---------------------------------------------------------------- what a trace does not show

  lemma SettledAlike(agg: Aggregator, r: Row, s: seq<Update>, t: seq<Update>, id: Id)
    requires forall c :: LastWrite(s, id, c) == LastWrite(t, id, c)
    ensures Settled(agg, r, s, id) == Settled(agg, r, t, id)
  {
    forall c ensures c in Written(s, id) <==> c in Written(t, id) {
      LastWriteFinds(s, id, c);
      LastWriteFinds(t, id, c);
      assert LastWrite(s, id, c) == LastWrite(t, id, c);
    }
    HitsIsWritten(s, id);
    HitsIsWritten(t, id);
    assert SettledChannels(r, s, id) == SettledChannels(r, t, id);
  }

  /** Confluence: traces with the same last write on every (id, channel) end in the same rows. */
  lemma Confluence(agg: Aggregator, rows: map<Id, Row>, s: seq<Update>, t: seq<Update>)
    requires forall id, c :: LastWrite(s, id, c) == LastWrite(t, id, c)
    ensures ApplyAll(agg, rows, s) == ApplyAll(agg, rows, t)
  {
    ReplayIsSettled(agg, rows, s);
    ReplayIsSettled(agg, rows, t);
    forall id | id in rows ensures Settled(agg, rows[id], s, id) == Settled(agg, rows[id], t, id) {
      forall c ensures LastWrite(s, id, c) == LastWrite(t, id, c) {
      }
      SettledAlike(agg, rows[id], s, t, id);
    }
  }

  lemma HitsIsWritten(trace: seq<Update>, id: Id)
    ensures Hits(trace, id) <==> Written(trace, id) != {}
  {
    if Hits(trace, id) {
      var i :| 0 <= i < |trace| && trace[i].id == id;
      assert trace[i].channel in Written(trace, id);
    }
  }

  /** The updates of a trace that concern one channel of one row, in order. */
  function On(trace: seq<Update>, id: Id, channel: string): seq<Update> {
    if trace == [] then []
    else
      var u := trace[|trace| - 1];
      On(trace[..|trace| - 1], id, channel) + (if u.id == id && u.channel == channel then [u] else [])
  }

  /** The updates of a trace that concern one row, in order. */
  function About(trace: seq<Update>, id: Id): seq<Update> {
    if trace == [] then []
    else
      var u := trace[|trace| - 1];
      About(trace[..|trace| - 1], id) + (if u.id == id then [u] else [])
  }

  lemma AboutSnoc(trace: seq<Update>, u: Update, id: Id)
    ensures About(trace + [u], id) == About(trace, id) + if u.id == id then [u] else []
  {
  }

  lemma {:induction false} AboutNobody(trace: seq<Update>, id: Id)
    requires forall u :: u in trace ==> u.id != id
    ensures About(trace, id) == []
  {
    if trace != [] {
      AboutNobody(trace[..|trace| - 1], id);
    }
  }

  lemma {:induction false} LastWriteFromProjection(trace: seq<Update>, id: Id, channel: string)
    ensures var p := On(trace, id, channel);
            LastWrite(trace, id, channel) == if p == [] then None else Some(p[|p| - 1].status)
  {
    if trace != [] {
      LastWriteFromProjection(trace[..|trace| - 1], id, channel);
    }
  }

  /** Reordering updates of different (id, channel) pairs in any way is invisible. */
  lemma ReorderingIsInvisible(agg: Aggregator, rows: map<Id, Row>, s: seq<Update>, t: seq<Update>)
    requires forall id, c :: On(s, id, c) == On(t, id, c)
    ensures ApplyAll(agg, rows, s) == ApplyAll(agg, rows, t)
  {
    forall id, c ensures LastWrite(s, id, c) == LastWrite(t, id, c) {
      LastWriteFromProjection(s, id, c);
      LastWriteFromProjection(t, id, c);
      assert On(s, id, c) == On(t, id, c);
    }
    Confluence(agg, rows, s, t);
  }

  lemma {:induction false} LastWriteAppend(a: seq<Update>, b: seq<Update>, id: Id, channel: string)
    ensures LastWrite(a + b, id, channel) ==
            if LastWrite(b, id, channel).Some? then LastWrite(b, id, channel) else LastWrite(a, id, channel)
  {
    if b == [] {
      assert a + b == a;
    } else {
      var b' := b[..|b| - 1];
      LastWriteAppend(a, b', id, channel);
      assert (a + b)[..|a + b| - 1] == a + b';
    }
  }

  /** A duplicate callback: when the latest earlier update of the same (id, channel) already wrote
      that status, the repetition can be dropped from the middle of any trace. */
  lemma DuplicateIsInvisible(agg: Aggregator, rows: map<Id, Row>, before: seq<Update>, u: Update, after: seq<Update>)
    requires LastWrite(before, u.id, u.channel) == Some(u.status)
    ensures ApplyAll(agg, rows, before + [u] + after) == ApplyAll(agg, rows, before + after)
  {
    forall id, c ensures LastWrite(before + [u] + after, id, c) == LastWrite(before + after, id, c) {
      LastWriteAppend(before + [u], after, id, c);
      LastWriteAppend(before, after, id, c);
      LastWriteAppend(before, [u], id, c);
      assert [u][..0] == [];
    }
    Confluence(agg, rows, before + [u] + after, before + after);
  }

  /** On plain statuses a trace leaves the same rows whichever implementation replays it. */
  lemma {:induction false} DialectsAgree(d: Dialect, e: Dialect, rows: map<Id, Row>, trace: seq<Update>)
    requires forall id, c :: id in rows && c in rows[id].channels ==> Plain(rows[id].channels[c])
    requires forall i :: 0 <= i < |trace| ==> Plain(trace[i].status)
    ensures ApplyAll(AggBy(d), rows, trace) == ApplyAll(AggBy(e), rows, trace)
    ensures var r := ApplyAll(AggBy(d), rows, trace);
            forall id, c :: id in r && c in r[id].channels ==> Plain(r[id].channels[c])
  {
    if trace != [] {
      var t' := trace[..|trace| - 1];
      var u := trace[|trace| - 1];
      DialectsAgree(d, e, rows, t');
      var r := ApplyAll(AggBy(d), rows, t');
      if u.id in r {
        var m := r[u.id].channels[u.channel := u.status];
        forall c | c in m ensures Plain(m[c]) {
          assert c in r[u.id].channels || c == u.channel;
        }
        PlainAggregatesAlike(d, e, m);
      }
    }
  }
}
