/** The enqueue operations as ordered effects on the table and the log, and their place in the
    protocol. Whether the table and the broker answer is a parameter of each call. */
module Api {
  import opened Statuses
  import opened Traces
  import opened Deliveries
  import opened StatusServices
  import opened SplitUpdates
  import opened Protocol
  import opened Intake

  /** The table and the log after one call with nothing in between its two effects. */
  function Enqueued(cfg: Config, rows: map<Id, Row>, log: seq<Entry>, id: Id, req: Request,
                    storeUp: bool, brokerUp: bool): (map<Id, Row>, seq<Entry>) {
    var rowsFirst := cfg.order.CreateThenProduce?;
    var creates := storeUp && (rowsFirst || brokerUp);
    var produces := brokerUp && (!rowsFirst || storeUp || cfg.toleratesCreateFailure);
    (if creates then rows[id := Initial(ChannelSet(req.channels))] else rows,
     if produces then log + [Msg(id, req)] else log)
  }

  datatype Effect = Created(id: Id) | Produced(id: Id)

  class NotificationApi {
    const store: StatusService
    var log: seq<Entry>
    ghost var effects: seq<Effect>   // in the order they were made

    constructor (s: StatusService)
      ensures store == s && log == [] && effects == []
    {
      store, log, effects := s, [], [];
    }

    /** TypeScript and Java: a failed creation throws; the message is emitted without waiting for
        the broker, so the caller gets its id even when the message never arrives. */
    method EnqueueRowFirst(id: Id, req: Request, storeUp: bool, brokerUp: bool) returns (r: Option<Id>)
      requires id !in store.rows && !store.dialect.Go? && !store.dialect.Rust?
      modifies this, store
      ensures (store.rows, log) == Enqueued(ConfigOf(store.dialect), old(store.rows), old(log), id, req, storeUp, brokerUp)
      ensures store.rows == if storeUp then old(store.rows)[id := Initial(ChannelSet(req.channels))] else old(store.rows)
      ensures log == if storeUp && brokerUp then old(log) + [Msg(id, req)] else old(log)
      ensures effects == old(effects) +
                         (if storeUp then [Created(id)] else []) + (if storeUp && brokerUp then [Produced(id)] else [])
      ensures r == if storeUp then Some(id) else None
    {
      if !storeUp {
        return None;
      }
      var ok := store.CreateInitialStatus(id, req.channels);
      effects := effects + [Created(id)];
      if brokerUp {
        log, effects := log + [Msg(id, req)], effects + [Produced(id)];
      }
      r := Some(id);
    }

    /** Go: a failed creation is logged and the message sent all the same; a failed send is
        reported to the caller, with the row left behind. */
    method EnqueueGo(id: Id, req: Request, storeUp: bool, brokerUp: bool) returns (r: Option<Id>)
      requires id !in store.rows && store.dialect.Go?
      modifies this, store
      ensures (store.rows, log) == Enqueued(ConfigOf(Go), old(store.rows), old(log), id, req, storeUp, brokerUp)
      ensures store.rows == if storeUp then old(store.rows)[id := Initial(ChannelSet(req.channels))] else old(store.rows)
      ensures log == if brokerUp then old(log) + [Msg(id, req)] else old(log)
      ensures effects == old(effects) +
                         (if storeUp then [Created(id)] else []) + (if brokerUp then [Produced(id)] else [])
      ensures r == if brokerUp then Some(id) else None
    {
      if storeUp {
        var ok := store.CreateInitialStatus(id, req.channels);
        effects := effects + [Created(id)];
      }
      if !brokerUp {
        return None;
      }
      log, effects := log + [Msg(id, req)], effects + [Produced(id)];
      r := Some(id);
    }

    /** Rust: the message is out before the row is created, and a failed creation is only logged. */
    method SendNotificationRust(id: Id, req: Request, storeUp: bool, brokerUp: bool) returns (r: Option<Id>)
      requires id !in store.rows && store.dialect.Rust?
      modifies this, store
      ensures (store.rows, log) == Enqueued(ConfigOf(Rust), old(store.rows), old(log), id, req, storeUp, brokerUp)
      ensures store.rows == if storeUp && brokerUp then old(store.rows)[id := Initial(ChannelSet(req.channels))] else old(store.rows)
      ensures log == if brokerUp then old(log) + [Msg(id, req)] else old(log)
      ensures effects == old(effects) +
                         (if brokerUp then [Produced(id)] else []) + (if storeUp && brokerUp then [Created(id)] else [])
      ensures r == if brokerUp then Some(id) else None
    {
      if !brokerUp {
        return None;
      }
      log, effects := log + [Msg(id, req)], effects + [Produced(id)];
      if storeUp {
        var ok := store.CreateInitialStatus(id, req.channels);
        effects := effects + [Created(id)];
      }
      r := Some(id);
    }
  }

  /** For a fresh id the protocol's separate steps, run back to back, are the enqueue operation. */
  lemma EnqueueIsProtocolRun(cfg: Config, s: State, id: Id, req: Request, storeUp: bool, brokerUp: bool)
    requires LogOk(cfg, s) && id !in s.used
    ensures var t := Exec(cfg, s, CallRun(cfg, id, req, storeUp, brokerUp));
            && (t.store.rows, t.log) == Enqueued(cfg, s.store.rows, s.log, id, req, storeUp, brokerUp)
            && t.calls == s.calls && t.used == s.used + {id}
            && t.next == s.next && t.consumer == s.consumer && t.attempts == s.attempts
  {
    FreshIdIsUnknown(cfg, s, id);
    var run := CallRun(cfg, id, req, storeUp, brokerUp);
    ExecThree(cfg, s, run[0], run[1], run[2]);
    if cfg.order.CreateThenProduce? {
      RowFirstCall(cfg, s, id, req, storeUp, brokerUp);
    } else {
      MessageFirstCall(cfg, s, id, req, storeUp, brokerUp);
    }
  }

  lemma FreshIdIsUnknown(cfg: Config, s: State, id: Id)
    requires LogOk(cfg, s) && id !in s.used
    ensures id !in s.calls && id !in s.store.rows
  {
  }

  lemma RowFirstCall(cfg: Config, s: State, id: Id, req: Request, storeUp: bool, brokerUp: bool)
    requires cfg.order.CreateThenProduce? && id !in s.used && id !in s.calls && id !in s.store.rows
    ensures var t := DoApiProduce(cfg, DoApiCreate(cfg, Step(cfg, s, Accept(id, req)), id, storeUp), id, brokerUp);
            && (t.store.rows, t.log) == Enqueued(cfg, s.store.rows, s.log, id, req, storeUp, brokerUp)
            && t.calls == s.calls && t.used == s.used + {id}
            && t.next == s.next && t.consumer == s.consumer && t.attempts == s.attempts
  {
  }

  lemma MessageFirstCall(cfg: Config, s: State, id: Id, req: Request, storeUp: bool, brokerUp: bool)
    requires cfg.order.ProduceThenCreate? && id !in s.used && id !in s.calls && id !in s.store.rows
    ensures var t := DoApiCreate(cfg, DoApiProduce(cfg, Step(cfg, s, Accept(id, req)), id, brokerUp), id, storeUp);
            && (t.store.rows, t.log) == Enqueued(cfg, s.store.rows, s.log, id, req, storeUp, brokerUp)
            && t.calls == s.calls && t.used == s.used + {id}
            && t.next == s.next && t.consumer == s.consumer && t.attempts == s.attempts
  {
  }
}
