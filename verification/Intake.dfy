/** The API side of the protocol: which rows exist for the messages in the log and which messages for
    the rows, and what the metrics can report in any reachable state. */
module Intake {
  import opened Statuses
  import opened Traces
  import opened Metrics
  import opened Deliveries
  import opened SplitUpdates
  import opened Protocol

  predicate Logged(log: seq<Entry>, id: Id) {
    exists i :: 0 <= i < |log| && log[i].Msg? && log[i].id == id
  }

  /** The rule for one call in flight. */
  predicate CallOk(cfg: Config, s: State, id: Id, call: Call) {
    && id in s.used
    && (call.stage.ToCreate? || cfg.order.ProduceThenCreate? ==> id !in s.store.rows)
    && (call.stage.ToProduce? || cfg.order.CreateThenProduce? ==> !Logged(s.log, id))
    && (forall i :: 0 <= i < |s.log| && s.log[i].Msg? && s.log[i].id == id ==> s.log[i].req == call.req)
    && (call.stage.ToProduce? && id in s.store.rows ==>
          id in s.store.births && s.store.births[id] == ChannelSet(call.req.channels))
    && (call.stage.ToProduce? && RowsFirst(cfg) ==> id in s.store.rows)
  }

  /** The order in which a message can never precede its row. */
  predicate RowsFirst(cfg: Config) {
    cfg.order.CreateThenProduce? && !cfg.toleratesCreateFailure
  }

  ghost predicate LogOk(cfg: Config, s: State) {
    && s.store.rows.Keys <= s.used
    && s.store.births.Keys == s.store.rows.Keys
    && (forall i, j :: 0 <= i < j < |s.log| && s.log[i].Msg? && s.log[j].Msg? ==> s.log[i].id != s.log[j].id)
    && (forall i :: 0 <= i < |s.log| && s.log[i].Msg? ==> MessageOk(cfg, s, s.log[i].id, s.log[i].req))
    && (forall id :: id in s.calls ==> CallOk(cfg, s, id, s.calls[id]))
  }

  /** The rule for one message in the log. */
  predicate MessageOk(cfg: Config, s: State, id: Id, req: Request) {
    && id in s.used
    && (id in s.store.births ==> s.store.births[id] == ChannelSet(req.channels))
    && (RowsFirst(cfg) ==> id in s.store.rows)
  }

  /** Updates in flight are about existing rows. */
  predicate PendingOk(s: Store) {
    forall who :: who in s.pending ==> s.pending[who].u.id in s.rows
  }

  /** Updates keep the rows, the births and therefore everything above. */
  lemma UpdatesKeepRows(agg: Aggregator, s: Store, steps: seq<StoreStep>)
    requires |steps| <= 2 && forall i :: 0 <= i < |steps| ==> !steps[i].DoCreate?
    requires PendingOk(s)
    ensures Run(agg, s, steps).rows.Keys == s.rows.Keys
    ensures Run(agg, s, steps).births == s.births
  {
  }

  /** Only these parts of the state matter to the rules. */
  lemma LogOkFrame(cfg: Config, s: State, t: State)
    requires LogOk(cfg, s)
    requires t.store.rows.Keys == s.store.rows.Keys && t.store.births == s.store.births
    requires t.used == s.used && t.log == s.log
    requires t.calls.Keys <= s.calls.Keys && forall id :: id in t.calls ==> t.calls[id] == s.calls[id]
    ensures LogOk(cfg, t)
  {
  }

  lemma AcceptKeepsLogOk(cfg: Config, s: State, id: Id, req: Request)
    requires LogOk(cfg, s)
    ensures LogOk(cfg, Step(cfg, s, Accept(id, req)))
  {
  }

  lemma CreateKeepsLogOk(cfg: Config, s: State, id: Id, ok: bool)
    requires LogOk(cfg, s)
    ensures LogOk(cfg, DoApiCreate(cfg, s, id, ok))
  {
    if id in s.calls && s.calls[id].stage.ToCreate? {
      var t := DoApiCreate(cfg, s, id, ok);
      assert CallOk(cfg, s, id, s.calls[id]);
      forall i | 0 <= i < |t.log| && t.log[i].Msg? ensures MessageOk(cfg, t, t.log[i].id, t.log[i].req) {
        assert MessageOk(cfg, s, s.log[i].id, s.log[i].req);
      }
      forall k | k in t.calls ensures CallOk(cfg, t, k, t.calls[k]) {
        assert CallOk(cfg, s, k, s.calls[k]);
      }
    }
  }

  lemma ProduceKeepsLogOk(cfg: Config, s: State, id: Id, ok: bool)
    requires LogOk(cfg, s)
    ensures LogOk(cfg, DoApiProduce(cfg, s, id, ok))
  {
    if id in s.calls && s.calls[id].stage.ToProduce? {
      var t := DoApiProduce(cfg, s, id, ok);
      assert CallOk(cfg, s, id, s.calls[id]);
      forall i | 0 <= i < |s.log| && s.log[i].Msg? ensures s.log[i].id != id {
        assert !Logged(s.log, id);
      }
      forall i | 0 <= i < |t.log| && t.log[i].Msg? ensures MessageOk(cfg, t, t.log[i].id, t.log[i].req) {
        if i < |s.log| {
          assert MessageOk(cfg, s, s.log[i].id, s.log[i].req);
        }
      }
      forall k | k in t.calls ensures CallOk(cfg, t, k, t.calls[k]) {
        assert CallOk(cfg, s, k, s.calls[k]);
        if Logged(t.log, k) && k != id {
          var i :| 0 <= i < |t.log| && t.log[i].Msg? && t.log[i].id == k;
          assert s.log[i].id == k;
        }
      }
    }
  }

  lemma PoisonKeepsLogOk(cfg: Config, s: State)
    requires LogOk(cfg, s)
    ensures LogOk(cfg, s.(log := s.log + [Poison]))
  {
  }

  /** The actions of an API call and of other producers. */
  predicate FromApi(a: Action) {
    a.Accept? || a.ApiCreate? || a.ApiProduce? || a.PoisonArrives?
  }

  lemma ApiKeepsLogOk(cfg: Config, s: State, a: Action)
    requires LogOk(cfg, s) && FromApi(a)
    ensures LogOk(cfg, Step(cfg, s, a))
  {
    match a {
      case Accept(id, req) => AcceptKeepsLogOk(cfg, s, id, req);
      case ApiCreate(id, ok) => CreateKeepsLogOk(cfg, s, id, ok);
      case ApiProduce(id, ok) => ProduceKeepsLogOk(cfg, s, id, ok);
      case PoisonArrives => PoisonKeepsLogOk(cfg, s);
    }
  }

  /** Everything else leaves the log and the used ids alone and starts no call. */
  lemma OthersLeaveLog(cfg: Config, s: State, a: Action)
    requires !FromApi(a)
    ensures var t := Step(cfg, s, a);
            && t.used == s.used && t.log == s.log && t.calls.Keys <= s.calls.Keys
            && forall id :: id in t.calls ==> t.calls[id] == s.calls[id]
  {
  }

  lemma OthersUpdate(cfg: Config, s: State, a: Action)
    requires !FromApi(a)
    ensures |OnStore(cfg, s, a)| <= 2 && forall i :: 0 <= i < |OnStore(cfg, s, a)| ==> !OnStore(cfg, s, a)[i].DoCreate?
  {
  }

  lemma OthersKeepRows(cfg: Config, s: State, a: Action)
    requires PendingOk(s.store) && !FromApi(a)
    ensures Step(cfg, s, a).store.rows.Keys == s.store.rows.Keys
    ensures Step(cfg, s, a).store.births == s.store.births
  {
    StepRefines(cfg, s, a);
    OthersUpdate(cfg, s, a);
    UpdatesKeepRows(cfg.agg, s.store, OnStore(cfg, s, a));
  }

  lemma StepKeepsLogOk(cfg: Config, s: State, a: Action)
    requires LogOk(cfg, s)
    requires PendingOk(s.store)
    ensures LogOk(cfg, Step(cfg, s, a))
  {
    if FromApi(a) {
      ApiKeepsLogOk(cfg, s, a);
    } else {
      OthersKeepRows(cfg, s, a);
      OthersLeaveLog(cfg, s, a);
      LogOkFrame(cfg, s, Step(cfg, s, a));
    }
  }

  lemma UpdatersHaveRows(agg: Aggregator, s: Store)
    requires Consistent(agg, s)
    ensures PendingOk(s)
  {
    forall who | who in s.pending ensures s.pending[who].u.id in s.rows {
      assert Fits(agg, s, s.pending[who].u.id, s.pending[who].snap);
    }
  }

  lemma PendingHaveRows(cfg: Config, run: seq<Action>)
    ensures PendingOk(Exec(cfg, START, run).store)
  {
    SystemRefinesSplitUpdates(cfg, run);
    UpdatersHaveRows(cfg.agg, Exec(cfg, START, run).store);
  }

  lemma {:induction false} AlwaysLogOk(cfg: Config, run: seq<Action>)
    ensures LogOk(cfg, Exec(cfg, START, run))
  {
    if run != [] {
      var r := run[..|run| - 1];
      AlwaysLogOk(cfg, r);
      PendingHaveRows(cfg, r);
      StepKeepsLogOk(cfg, Exec(cfg, START, r), run[|run| - 1]);
    }
  }

  /** Create-then-produce, failed creations giving up (TypeScript, Java): in every reachable state
      every message in the log has a row holding all its requested channels, and no two messages
      share an id, so the worker never takes the missing-row return. */
  lemma RowsPrecedeMessages(cfg: Config, run: seq<Action>, i: nat)
    requires RowsFirst(cfg)
    requires i < |Exec(cfg, START, run).log| && Exec(cfg, START, run).log[i].Msg?
    ensures var s := Exec(cfg, START, run);
            && s.log[i].id in s.store.rows
            && ChannelSet(s.log[i].req.channels) <= s.store.rows[s.log[i].id].channels.Keys
            && forall j :: 0 <= j < |s.log| && j != i && s.log[j].Msg? ==> s.log[j].id != s.log[i].id
  {
    AlwaysLogOk(cfg, run);
    SystemRefinesSplitUpdates(cfg, run);
    var s := Exec(cfg, START, run);
    assert MessageOk(cfg, s, s.log[i].id, s.log[i].req);
    assert Fits(cfg.agg, s.store, s.log[i].id, s.store.rows[s.log[i].id]);
  }

  ghost predicate EveryMessageHasARow(s: State) {
    forall i :: 0 <= i < |s.log| && s.log[i].Msg? ==> s.log[i].id in s.store.rows
  }

  /** A message without a row: a creation that fails and is tolerated, or has not happened yet. */
  function RowlessRun(cfg: Config, id: Id, req: Request): seq<Action> {
    [Accept(id, req), if cfg.order.CreateThenProduce? then ApiCreate(id, false) else PoisonArrives, ApiProduce(id, true)]
  }

  lemma RowlessRunLeavesNoRow(cfg: Config, id: Id, req: Request)
    requires !RowsFirst(cfg)
    ensures var s := Exec(cfg, START, RowlessRun(cfg, id, req));
            && s.log != [] && s.log[|s.log| - 1] == Msg(id, req)
            && s.store.rows == map[]
  {
    var run := RowlessRun(cfg, id, req);
    ExecThree(cfg, START, run[0], run[1], run[2]);
  }

  /** Rows precede messages in every reachable state exactly in the row-first configurations: Go, by
      producing after a failed creation, and Rust, by producing first, reach a message without one. */
  lemma RowsPrecedeMessagesIff(cfg: Config)
    ensures RowsFirst(cfg) <==> forall run :: EveryMessageHasARow(Exec(cfg, START, run))
  {
    if RowsFirst(cfg) {
      forall run ensures EveryMessageHasARow(Exec(cfg, START, run)) {
        var s := Exec(cfg, START, run);
        forall i | 0 <= i < |s.log| && s.log[i].Msg? ensures s.log[i].id in s.store.rows {
          RowsPrecedeMessages(cfg, run, i);
        }
      }
    } else {
      var req := Request([], [], "");
      RowlessRunLeavesNoRow(cfg, "n", req);
      var s := Exec(cfg, START, RowlessRun(cfg, "n", req));
      assert s.log[|s.log| - 1] == Msg("n", req) && "n" !in s.store.rows;
      assert !EveryMessageHasARow(s);
    }
  }

  // ---------------------------------------------------------------- rows without a message

  /** Every row has its message in the log, or a call that may still produce it. */
  predicate EveryRowIsDue(s: State) {
    forall id :: id in s.store.rows ==> Logged(s.log, id) || id in s.calls
  }

  /** Where the message goes first, calls about to create a row, and all rows, have it in the log. */
  predicate MessagesFirst(s: State) {
    && (forall id :: id in s.store.rows ==> Logged(s.log, id))
    && (forall id :: id in s.calls && s.calls[id].stage.ToCreate? ==> Logged(s.log, id))
  }

  lemma LoggedStays(log: seq<Entry>, e: Entry, id: Id)
    ensures Logged(log, id) ==> Logged(log + [e], id)
    ensures e.Msg? ==> Logged(log + [e], e.id)
  {
    if Logged(log, id) {
      var i :| 0 <= i < |log| && log[i].Msg? && log[i].id == id;
      assert (log + [e])[i] == log[i];
    }
    assert (log + [e])[|log|] == e;
  }

  lemma ApiKeepsMessagesFirst(cfg: Config, s: State, a: Action)
    requires cfg.order.ProduceThenCreate? && MessagesFirst(s) && FromApi(a)
    ensures MessagesFirst(Step(cfg, s, a))
  {
    var e := if a.ApiProduce? && a.id in s.calls then Msg(a.id, s.calls[a.id].req) else Poison;
    forall id ensures Logged(s.log, id) ==> Logged(s.log + [e], id) {
      LoggedStays(s.log, e, id);
    }
    LoggedStays(s.log, e, "");
  }

  lemma StepKeepsMessagesFirst(cfg: Config, s: State, a: Action)
    requires cfg.order.ProduceThenCreate? && MessagesFirst(s) && PendingOk(s.store)
    ensures MessagesFirst(Step(cfg, s, a))
  {
    if FromApi(a) {
      ApiKeepsMessagesFirst(cfg, s, a);
    } else {
      OthersKeepRows(cfg, s, a);
      OthersLeaveLog(cfg, s, a);
    }
  }

  lemma {:induction false} AlwaysMessagesFirst(cfg: Config, run: seq<Action>)
    requires cfg.order.ProduceThenCreate?
    ensures MessagesFirst(Exec(cfg, START, run))
  {
    if run != [] {
      var r := run[..|run| - 1];
      AlwaysMessagesFirst(cfg, r);
      PendingHaveRows(cfg, r);
      StepKeepsMessagesFirst(cfg, Exec(cfg, START, r), run[|run| - 1]);
    }
  }

  /** The row is created and the send fails: nothing is ever logged, and TypeScript and Java tell the
      caller its id all the same. */
  lemma OrphanRun(cfg: Config, id: Id, req: Request)
    requires cfg.order.CreateThenProduce?
    ensures var s := Exec(cfg, START, CallRun(cfg, id, req, true, false));
            && Drained(s) && s.log == [] && s.calls == map[] && s.hooked == {}
            && s.store.rows == map[id := Initial(ChannelSet(req.channels))]
            && s.store.births == map[id := ChannelSet(req.channels)]
  {
    var run := CallRun(cfg, id, req, true, false);
    ExecThree(cfg, START, run[0], run[1], run[2]);
    assert map[id := Call(req, ToCreate)][id := Call(req, ToProduce)] - {id} == map[];
  }

  /** The counterpart: no row is left without its message in any reachable state exactly where the
      message comes first. Where the row does, a failed send or a call that dies leaves an orphan. */
  lemma RowsHaveMessagesIff(cfg: Config)
    ensures (forall run :: EveryRowIsDue(Exec(cfg, START, run))) <==> cfg.order.ProduceThenCreate?
  {
    if cfg.order.ProduceThenCreate? {
      forall run ensures EveryRowIsDue(Exec(cfg, START, run)) {
        AlwaysMessagesFirst(cfg, run);
      }
    } else {
      var req := Request([], [], "");
      OrphanRun(cfg, "n", req);
      var s := Exec(cfg, START, CallRun(cfg, "n", req, true, false));
      assert "n" in s.store.rows && !Logged(s.log, "n");
      assert !EveryRowIsDue(s);
    }
  }

  // ---------------------------------------------------------------- metrics

  lemma StepCountsRows(cfg: Config, s: State, a: Action)
    requires |s.store.rows| == s.created
    requires PendingOk(s.store)
    ensures |Step(cfg, s, a).store.rows| == Step(cfg, s, a).created
  {
    if a.ApiCreate? {
      CreateCountsRows(cfg, s, a.id, a.ok);
    } else {
      StepRefines(cfg, s, a);
      UpdatesKeepRows(cfg.agg, s.store, OnStore(cfg, s, a));
      SameKeysSameSize(s.store.rows, Step(cfg, s, a).store.rows);
      OnlyCreationCounts(cfg, s, a);
    }
  }

  lemma OnlyCreationCounts(cfg: Config, s: State, a: Action)
    requires !a.ApiCreate?
    ensures Step(cfg, s, a).created == s.created
  {
  }

  lemma CreateCountsRows(cfg: Config, s: State, id: Id, ok: bool)
    requires |s.store.rows| == s.created
    ensures |DoApiCreate(cfg, s, id, ok).store.rows| == DoApiCreate(cfg, s, id, ok).created
  {
  }

  lemma SameKeysSameSize(m: map<Id, Row>, n: map<Id, Row>)
    requires m.Keys == n.Keys
    ensures |m| == |n|
  {
  }

  lemma {:induction false} AlwaysCountsRows(cfg: Config, run: seq<Action>)
    ensures |Exec(cfg, START, run).store.rows| == Exec(cfg, START, run).created
  {
    if run != [] {
      var r := run[..|run| - 1];
      AlwaysCountsRows(cfg, r);
      PendingHaveRows(cfg, r);
      StepCountsRows(cfg, Exec(cfg, START, r), run[|run| - 1]);
    }
  }

  /** The split write moves one unit too, stale snapshot or not. */
  lemma WriteMovesOneUnit(agg: Aggregator, s: Store, who: nat, status: string)
    requires who in s.pending && s.pending[who].u.id in s.rows
    ensures var t, id := Finish(agg, s, who), s.pending[who].u.id;
            && |t.rows| == |s.rows| && id in t.rows
            && Count(t.rows, status) + (if s.rows[id].status == status then 1 else 0) ==
               Count(s.rows, status) + (if t.rows[id].status == status then 1 else 0)
  {
    var p := s.pending[who];
    ReplaceRow(s.rows, p.u.id, Touch(agg, p.snap, p.u.channel, p.u.status), status);
  }

  /** In every reachable state the four overall statuses partition the rows, their number is the
      number of rows ever created, and no implementation counts a single failure. */
  lemma MetricsOfEveryRun(d: Dialect, cfg: Config, run: seq<Action>)
    requires cfg.agg == AggBy(d)
    ensures var s := Exec(cfg, START, run);
            && |s.store.rows| == s.created
            && Count(s.store.rows, ENQUEUED) + Count(s.store.rows, PROCESSING) +
               Count(s.store.rows, COMPLETED) + Count(s.store.rows, PARTIAL_FAILURE) == s.created
            && |Reading(d, s.store.rows, COMPLETED)| == Count(s.store.rows, COMPLETED)
            && |Reading(d, s.store.rows, FAILED)| == 0
  {
    var s := Exec(cfg, START, run);
    SystemRefinesSplitUpdates(cfg, run);
    AlwaysCountsRows(cfg, run);
    forall id | id in s.store.rows ensures Overall(s.store.rows[id].status) {
      assert Fits(cfg.agg, s.store, id, s.store.rows[id]);
    }
    FourBucketsPartition(d, s.store.rows);
  }
}
