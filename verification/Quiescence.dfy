/** What a drained log leaves in the rows, notification by notification: with webhooks on it that
    report in one step, and no row created behind the worker's back, a notification with a row is
    finished exactly when its message reached the log, whatever crashes and redeliveries happened and
    whatever webhooks do to other notifications. */
module Quiescence {
  import opened Statuses
  import opened Traces
  import opened Deliveries
  import opened SplitUpdates
  import opened Protocol
  import opened DeliveryGuarantees
  import opened Intake

  /** The consumer has moved past the message for this id, or has it in hand. */
  predicate TakenUp(s: State, id: Id) {
    exists off :: 0 <= off < |s.log| && s.log[off].Msg? && s.log[off].id == id &&
                  (off < s.next || (off == s.next && s.consumer.Busy?))
  }

  predicate HasInHand(s: State, id: Id) {
    s.consumer.Busy? && s.next < |s.log| && s.log[s.next].Msg? && s.log[s.next].id == id
  }

  /** What the notification asks of an action: a webhook on it reports a terminal status, reading and
      writing in one step; a crash with its message in hand resumes at or before that message; and
      its row is not created once the message was taken up. */
  predicate CalmStep(cfg: Config, s: State, a: Action, id: Id) {
    match a
    case HookRead(_, u) => u.id != id
    case Hook(who, u) => u.id == id && who + 1 !in s.store.pending ==> Terminal(u.status)
    case Crash(resume) => HasInHand(s, id) && resume <= Marked(cfg, s) ==> resume <= s.next
    case ApiCreate(k, ok) => k == id && ok && k in s.calls && s.calls[k].stage.ToCreate? ==> !TakenUp(s, id)
    case _ => true
  }

  ghost predicate Calm(cfg: Config, run: seq<Action>, id: Id) {
    run == [] ||
    (Calm(cfg, run[..|run| - 1], id) && CalmStep(cfg, Exec(cfg, START, run[..|run| - 1]), run[|run| - 1], id))
  }

  /** The part of calm that can be read off the actions: quiet webhooks on this notification. */
  predicate QuietHooks(run: seq<Action>, id: Id) {
    forall k :: 0 <= k < |run| ==>
      match run[k]
      case HookRead(_, u) => u.id != id
      case Hook(_, u) => u.id == id ==> Terminal(u.status)
      case _ => true
  }

  /** No webhook ever reported on this notification. */
  predicate Unhooked(s: State, id: Id) {
    forall u :: u in s.hooked ==> u.id != id
  }

  predicate CreationsSucceed(run: seq<Action>) {
    forall k :: 0 <= k < |run| && run[k].ApiCreate? ==> run[k].ok
  }

  /** Rows first and marking after the work: TypeScript, Java and Go. */
  predicate Orderly(cfg: Config) {
    cfg.order.CreateThenProduce? && !cfg.marksOnReceipt
  }

  /** The order of creation and the marking do the rest. */
  lemma {:induction false} OrderlyRunsAreCalm(cfg: Config, run: seq<Action>, id: Id)
    requires Orderly(cfg) && (QuietHooks(run, id) || Unhooked(Exec(cfg, START, run), id))
    ensures Calm(cfg, run, id)
  {
    if run != [] {
      var r, a := run[..|run| - 1], run[|run| - 1];
      var s := Exec(cfg, START, r);
      if Unhooked(Exec(cfg, START, run), id) {
        HooksBefore(cfg, s, a, id);
      }
      assert QuietHooks(run, id) ==> QuietHooks(r, id);
      OrderlyRunsAreCalm(cfg, r, id);
      AlwaysLogOk(cfg, r);
      NoRowBehind(cfg, s, a);
      assert run[|run| - 1] == a;
    }
  }

  lemma HooksBefore(cfg: Config, s: State, a: Action, id: Id)
    requires Unhooked(Step(cfg, s, a), id)
    ensures Unhooked(s, id)
    ensures a.HookRead? ==> a.u.id != id
    ensures a.Hook? && a.who + 1 !in s.store.pending ==> a.u.id != id
  {
    var t := Step(cfg, s, a);
    assert s.hooked <= t.hooked;
    if a.HookRead? || (a.Hook? && a.who + 1 !in s.store.pending) {
      assert a.u in t.hooked;
    }
  }

  lemma NoRowBehind(cfg: Config, s: State, a: Action)
    requires LogOk(cfg, s) && cfg.order.CreateThenProduce?
    ensures a.ApiCreate? && a.id in s.calls ==> !TakenUp(s, a.id)
  {
    if a.ApiCreate? && a.id in s.calls {
      assert CallOk(cfg, s, a.id, s.calls[a.id]);
      assert !Logged(s.log, a.id);
    }
  }

  /** While no creation fails, tolerating failures makes no difference. */
  lemma {:induction false} ToleranceUnused(cfg: Config, run: seq<Action>)
    requires CreationsSucceed(run)
    ensures Exec(cfg, START, run) == Exec(cfg.(toleratesCreateFailure := false), START, run)
  {
    if run != [] {
      var r := run[..|run| - 1];
      ToleranceUnused(cfg, r);
      SameStep(cfg, Exec(cfg, START, r), run[|run| - 1]);
    }
  }

  lemma SameStep(cfg: Config, s: State, a: Action)
    requires a.ApiCreate? ==> a.ok
    ensures Step(cfg, s, a) == Step(cfg.(toleratesCreateFailure := false), s, a)
  {
  }

  /** Rows precede their messages also where failed creations are tolerated, as long as none fails. */
  lemma SuccessfulCreationsSuffice(cfg: Config, run: seq<Action>)
    requires cfg.order.CreateThenProduce? && (cfg.toleratesCreateFailure ==> CreationsSucceed(run))
    ensures EveryMessageHasARow(Exec(cfg, START, run))
  {
    if cfg.toleratesCreateFailure {
      ToleranceUnused(cfg, run);
    }
    RowsPrecedeMessagesIff(cfg.(toleratesCreateFailure := false));
  }

  // ---------------------------------------------------------------- the invariant

  /** Every channel of the row is terminal, or still has the given channels to blame. */
  predicate SettledBut(r: Row, rest: set<string>) {
    forall c :: c in r.channels ==> Terminal(r.channels[c]) || c in rest
  }

  function Rest(req: Request, ci: nat): set<string>
    requires ci <= |req.channels|
  {
    ChannelSet(req.channels[ci..])
  }

  /** The worker stands between a read and its write. */
  predicate InWrite(s: State)
    requires InHand(s)
  {
    s.consumer.Busy? && s.consumer.ci < |s.log[s.next].req.channels| &&
    (s.consumer.phase.StartWrite? || s.consumer.phase.EndWrite?)
  }

  function WriteOf(s: State): Update
    requires InHand(s) && InWrite(s)
  {
    Update(s.log[s.next].id, s.log[s.next].req.channels[s.consumer.ci],
           if s.consumer.phase.StartWrite? then PROCESSING else s.consumer.phase.st)
  }

  /** The worker's update in flight is the one its phase calls for. */
  predicate WorkerOk(s: State)
    requires InHand(s)
  {
    WORKER in s.store.pending ==> InWrite(s) && s.store.pending[WORKER].u == WriteOf(s)
  }

  predicate OnlyWorker(s: Store, id: Id) {
    forall who :: who in s.pending && s.pending[who].u.id == id ==> who == WORKER
  }

  /** The row: what is not terminal is a channel it was created with; nothing once its message is
      past; and while the message is in hand a channel still to come, in the worker's snapshot too. */
  ghost predicate RowSettling(s: State, id: Id)
    requires InHand(s) && id in s.store.rows
  {
    && id in s.store.births && SettledBut(s.store.rows[id], s.store.births[id])
    && (forall off :: 0 <= off < s.next && off < |s.log| && s.log[off].Msg? && s.log[off].id == id ==>
          SettledBut(s.store.rows[id], {}))
    && (HasInHand(s, id) ==> HandSettling(s, id))
  }

  predicate HandSettling(s: State, id: Id)
    requires InHand(s) && HasInHand(s, id) && id in s.store.rows
  {
    && SettledBut(s.store.rows[id], Rest(s.log[s.next].req, s.consumer.ci))
    && (InWrite(s) ==> WORKER in s.store.pending &&
                       SettledBut(s.store.pending[WORKER].snap, Rest(s.log[s.next].req, s.consumer.ci)))
  }

  ghost predicate Settling(s: State, id: Id) {
    && InHand(s) && WorkerOk(s)
    && OnlyWorker(s.store, id)
    && (id in s.store.rows ==> RowSettling(s, id))
  }

  lemma RestNext(req: Request, ci: nat)
    requires ci < |req.channels|
    ensures Rest(req, ci) == Rest(req, ci + 1) + {req.channels[ci]}
    ensures Rest(req, ci) <= ChannelSet(req.channels)
  {
  }

  lemma RestWhole(req: Request)
    ensures Rest(req, 0) == ChannelSet(req.channels) && Rest(req, |req.channels|) == {}
  {
  }

  // ---------------------------------------------------------------- steps that leave the row alone

  /** The same row, and the same worker, with no webhook on the row. */
  predicate SameFor(s: Store, t: Store, id: Id) {
    && (id in s.rows <==> id in t.rows) && (id in s.rows ==> t.rows[id] == s.rows[id])
    && (id in s.births <==> id in t.births) && (id in s.births ==> t.births[id] == s.births[id])
    && (WORKER in s.pending <==> WORKER in t.pending)
    && (WORKER in s.pending ==> t.pending[WORKER] == s.pending[WORKER])
    && OnlyWorker(t, id)
  }

  lemma FrameKeepsSettling(s: State, t: State, id: Id)
    requires Settling(s, id) && s.next <= |s.log| && SameFor(s.store, t.store, id)
    requires s.log <= t.log && t.next == s.next && t.consumer == s.consumer
    ensures Settling(t, id)
  {
  }

  /** A table step by a webhook, about another row. */
  predicate Elsewhere(s: Store, step: StoreStep, id: Id) {
    match step
    case DoCreate(k, _) => k != id
    case DoBegin(who, u) => who != WORKER && u.id != id
    case DoFinish(who) => who != WORKER
    case DoAbandon(who) => who != WORKER
  }

  lemma ElsewhereIsSame(agg: Aggregator, s: Store, step: StoreStep, id: Id)
    requires OnlyWorker(s, id) && Elsewhere(s, step, id)
    ensures SameFor(s, Next(agg, s, step), id)
  {
  }

  lemma SameTwice(s: Store, t: Store, v: Store, id: Id)
    requires SameFor(s, t, id) && SameFor(t, v, id)
    ensures SameFor(s, v, id)
  {
  }

  /** The steps of an action on the table are all about other rows. */
  predicate AllElsewhere(cfg: Config, s: State, a: Action, id: Id) {
    forall k :: 0 <= k < |OnStore(cfg, s, a)| ==> Elsewhere(s.store, OnStore(cfg, s, a)[k], id)
  }

  lemma ElsewhereKeepsStore(cfg: Config, s: State, a: Action, id: Id)
    requires OnlyWorker(s.store, id) && |OnStore(cfg, s, a)| <= 2 && AllElsewhere(cfg, s, a, id)
    ensures SameFor(s.store, Step(cfg, s, a).store, id)
  {
    var steps := OnStore(cfg, s, a);
    StepRefines(cfg, s, a);
    if |steps| >= 1 {
      RunOne(cfg.agg, s.store, steps[0]);
      ElsewhereIsSame(cfg.agg, s.store, steps[0], id);
      if |steps| == 2 {
        var t := Next(cfg.agg, s.store, steps[0]);
        assert steps[..1] == [steps[0]];
        ElsewhereIsSame(cfg.agg, t, steps[1], id);
        SameTwice(s.store, t, Next(cfg.agg, t, steps[1]), id);
      }
    }
  }

  /** Everything but the consumer and what is done to this very row. */
  predicate Aside(s: State, a: Action, id: Id) {
    match a
    case Work(_) => false
    case Crash(_) => false
    case ApiCreate(k, _) => k != id
    case Hook(who, u) => u.id != id || who + 1 in s.store.pending
    case _ => true
  }

  lemma AsideIsElsewhere(cfg: Config, s: State, a: Action, id: Id)
    requires CalmStep(cfg, s, a, id) && Aside(s, a, id)
    ensures |OnStore(cfg, s, a)| <= 2 && AllElsewhere(cfg, s, a, id)
  {
  }

  lemma AsideLeavesConsumer(cfg: Config, s: State, a: Action, id: Id)
    requires Aside(s, a, id)
    ensures var t := Step(cfg, s, a);
            s.log <= t.log && t.next == s.next && t.consumer == s.consumer
  {
  }

  lemma AsideKeepsSettling(cfg: Config, s: State, a: Action, id: Id)
    requires Settling(s, id) && s.next <= |s.log| && CalmStep(cfg, s, a, id) && Aside(s, a, id)
    ensures Settling(Step(cfg, s, a), id)
  {
    AsideIsElsewhere(cfg, s, a, id);
    ElsewhereKeepsStore(cfg, s, a, id);
    AsideLeavesConsumer(cfg, s, a, id);
    FrameKeepsSettling(s, Step(cfg, s, a), id);
  }

  // ---------------------------------------------------------------- the consumer

  /** A write by the worker on this row: the row becomes its snapshot with one channel set. */
  lemma WriteSettles(agg: Aggregator, s: Store, id: Id, births: set<string>, before: set<string>, after: set<string>)
    requires WORKER in s.pending && s.pending[WORKER].u.id == id && id in s.rows
    requires SettledBut(s.pending[WORKER].snap, before) && before <= births
    requires var u := s.pending[WORKER].u;
             if Terminal(u.status) then before <= after + {u.channel} else before == after && u.channel in before
    ensures var t := Finish(agg, s, WORKER);
            && id in t.rows && SettledBut(t.rows[id], after) && SettledBut(t.rows[id], births)
            && WORKER !in t.pending && t.births == s.births
  {
  }

  /** The two writing phases, with the message in hand. */
  lemma WritePhaseKeepsSettling(cfg: Config, s: State, ok: bool, id: Id)
    requires LogOk(cfg, s) && Working(cfg, s) && Settling(s, id) && HasInHand(s, id) && InWrite(s) && id in s.store.rows
    ensures Settling(Consume(cfg, s, ok), id)
  {
    var t := Consume(cfg, s, ok);
    var req, ci := s.log[s.next].req, s.consumer.ci;
    RestNext(req, ci);
    assert MessageOk(cfg, s, id, req);
    WriteSettles(cfg.agg, s.store, id, s.store.births[id], Rest(req, ci),
                 if s.consumer.phase.StartWrite? then Rest(req, ci) else Rest(req, ci + 1));
    assert OnlyWorker(t.store, id);
  }

  lemma WorkKeepsWorkerOk(cfg: Config, s: State, ok: bool)
    requires InHand(s) && WorkerOk(s)
    ensures InHand(Consume(cfg, s, ok)) && WorkerOk(Consume(cfg, s, ok))
  {
  }

  /** What the worker's own steps may touch. */
  predicate ByWorker(s: Store, step: StoreStep, id: Id) {
    match step
    case DoCreate(_, _) => false
    case DoBegin(who, u) => who == WORKER && u.id == id
    case DoFinish(who) => who == WORKER && (who in s.pending ==> s.pending[who].u.id == id)
    case DoAbandon(_) => false
  }

  lemma WorkIsByWorker(cfg: Config, s: State)
    requires InHand(s) && WorkerOk(s) && WorkOnStore(cfg, s) != []
    ensures HasInHand(s, s.log[s.next].id) && |WorkOnStore(cfg, s)| == 1
    ensures ByWorker(s.store, WorkOnStore(cfg, s)[0], s.log[s.next].id)
  {
  }

  lemma ByWorkerElsewhere(agg: Aggregator, s: Store, step: StoreStep, k: Id, id: Id)
    requires ByWorker(s, step, k) && k != id && OnlyWorker(s, id)
    ensures var t := Next(agg, s, step);
            && (id in s.rows <==> id in t.rows) && (id in s.rows ==> t.rows[id] == s.rows[id])
            && t.births == s.births && OnlyWorker(t, id)
  {
  }

  /** The message in hand without a write to its row: the row stays, and a snapshot taken is the row. */
  lemma ReadPhaseStore(agg: Aggregator, s: Store, step: StoreStep, id: Id)
    requires OnlyWorker(s, id) && ByWorker(s, step, id)
    requires step.DoFinish? ==> WORKER !in s.pending
    ensures var t := Next(agg, s, step);
            && t.rows == s.rows && t.births == s.births && OnlyWorker(t, id)
            && (WORKER in t.pending && WORKER !in s.pending ==>
                  t.pending[WORKER].u.id in s.rows && t.pending[WORKER].snap == s.rows[t.pending[WORKER].u.id])
            && (step.DoBegin? && id in s.rows ==> WORKER in t.pending)
  {
  }

  lemma PhaseLeaves(cfg: Config, s: State, ok: bool)
    requires InHand(s) && s.consumer.Busy? && s.consumer.ci < |s.log[s.next].req.channels|
    ensures var t := Consume(cfg, s, ok);
            && t.log == s.log && t.next == s.next && t.consumer.Busy?
            && (t.consumer.ci == s.consumer.ci || (InWrite(s) && t.consumer.ci == s.consumer.ci + 1))
            && (InHand(t) && InWrite(t) ==> |WorkOnStore(cfg, s)| == 1 && WorkOnStore(cfg, s)[0].DoBegin?)
            && (!InWrite(s) ==> forall k :: 0 <= k < |WorkOnStore(cfg, s)| ==> !WorkOnStore(cfg, s)[k].DoFinish?)
  {
  }

  lemma OtherPhaseKeepsSettling(cfg: Config, s: State, ok: bool, id: Id)
    requires Settling(s, id) && HasInHand(s, id) && PendingOk(s.store)
    requires s.consumer.ci < |s.log[s.next].req.channels| && (InWrite(s) ==> id !in s.store.rows)
    ensures Settling(Consume(cfg, s, ok), id)
  {
    var t := Consume(cfg, s, ok);
    WorkKeepsWorkerOk(cfg, s, ok);
    PhaseLeaves(cfg, s, ok);
    StepRefines(cfg, s, Work(ok));
    if WorkOnStore(cfg, s) != [] {
      WorkIsByWorker(cfg, s);
      RunOne(cfg.agg, s.store, WorkOnStore(cfg, s)[0]);
      ReadPhaseStore(cfg.agg, s.store, WorkOnStore(cfg, s)[0], id);
    }
    assert t.store.rows == s.store.rows && t.store.births == s.store.births;
    if id in s.store.rows {
      ReadPhaseSettles(s, t, id);
    }
  }

  lemma ReadPhaseSettles(s: State, t: State, id: Id)
    requires Settling(s, id) && HasInHand(s, id) && id in s.store.rows && !InWrite(s)
    requires InHand(t) && WorkerOk(t) && HasInHand(t, id)
    requires t.store.rows == s.store.rows && t.store.births == s.store.births
    requires t.log == s.log && t.next == s.next && t.consumer.ci == s.consumer.ci
    requires InWrite(t) ==> WORKER in t.store.pending && t.store.pending[WORKER].snap == s.store.rows[id]
    ensures RowSettling(t, id)
  {
  }

  /** Taking the message up, and marking it. */
  lemma EndsKeepSettling(cfg: Config, s: State, ok: bool, id: Id)
    requires LogOk(cfg, s) && Working(cfg, s) && Settling(s, id)
    requires s.next < |s.log| && s.log[s.next].Msg? && s.log[s.next].id == id
    requires s.consumer.Idle? || s.consumer.ci == |s.log[s.next].req.channels|
    ensures Settling(Consume(cfg, s, ok), id)
  {
    assert MessageOk(cfg, s, id, s.log[s.next].req);
    RestWhole(s.log[s.next].req);
  }

  /** The consumer busy with another message, or with none. */
  lemma OtherWorkKeepsSettling(cfg: Config, s: State, ok: bool, id: Id)
    requires Settling(s, id) && !(s.next < |s.log| && s.log[s.next].Msg? && s.log[s.next].id == id)
    ensures Settling(Consume(cfg, s, ok), id)
  {
    var t := Consume(cfg, s, ok);
    WorkKeepsWorkerOk(cfg, s, ok);
    StepRefines(cfg, s, Work(ok));
    if WorkOnStore(cfg, s) != [] {
      WorkIsByWorker(cfg, s);
      RunOne(cfg.agg, s.store, WorkOnStore(cfg, s)[0]);
      ByWorkerElsewhere(cfg.agg, s.store, WorkOnStore(cfg, s)[0], s.log[s.next].id, id);
    }
    OtherMessage(cfg, s, ok, id);
  }

  lemma OtherMessage(cfg: Config, s: State, ok: bool, id: Id)
    requires InHand(s) && !(s.next < |s.log| && s.log[s.next].Msg? && s.log[s.next].id == id)
    ensures var t := Consume(cfg, s, ok);
            && t.log == s.log && s.next <= t.next <= s.next + 1
            && (t.next > s.next ==> s.next < |s.log|)
            && !HasInHand(t, id)
  {
  }

  lemma WorkKeepsSettling(cfg: Config, s: State, ok: bool, id: Id)
    requires LogOk(cfg, s) && Working(cfg, s) && Settling(s, id) && PendingOk(s.store)
    ensures Settling(Consume(cfg, s, ok), id)
  {
    if s.next < |s.log| && s.log[s.next].Msg? && s.log[s.next].id == id {
      if s.consumer.Idle? || s.consumer.ci == |s.log[s.next].req.channels| {
        EndsKeepSettling(cfg, s, ok, id);
      } else if InWrite(s) && id in s.store.rows {
        WritePhaseKeepsSettling(cfg, s, ok, id);
      } else {
        OtherPhaseKeepsSettling(cfg, s, ok, id);
      }
    } else {
      OtherWorkKeepsSettling(cfg, s, ok, id);
    }
  }

  lemma CrashKeepsSettling(cfg: Config, s: State, resume: nat, id: Id)
    requires Settling(s, id) && CalmStep(cfg, s, Crash(resume), id)
    ensures Settling(Step(cfg, s, Crash(resume)), id)
  {
  }

  // ---------------------------------------------------------------- this very row

  /** A webhook reporting a terminal status in one step. */
  lemma HookSettles(agg: Aggregator, s: Store, who: nat, u: Update)
    requires who != WORKER && who !in s.pending && Terminal(u.status) && OnlyWorker(s, u.id) && u.id in s.rows
    ensures var t := Finish(agg, Begin(s, who, u), who);
            && t.pending == s.pending && t.births == s.births && u.id in t.rows
            && forall rest :: SettledBut(s.rows[u.id], rest) ==> SettledBut(t.rows[u.id], rest)
  {
    assert Begin(s, who, u).pending - {who} == s.pending;
  }

  lemma HookKeepsSettling(cfg: Config, s: State, who: nat, u: Update)
    requires Settling(s, u.id) && Terminal(u.status) && who + 1 !in s.store.pending
    ensures Settling(Step(cfg, s, Hook(who, u)), u.id)
  {
    if u.id in s.store.rows {
      HookSettles(cfg.agg, s.store, who + 1, u);
    }
  }

  /** Creating the row before its message is taken up. */
  lemma CreateKeepsSettling(cfg: Config, s: State, id: Id, ok: bool)
    requires Settling(s, id) && CalmStep(cfg, s, ApiCreate(id, ok), id) && PendingOk(s.store) && s.next <= |s.log|
    ensures Settling(DoApiCreate(cfg, s, id, ok), id)
  {
    var t := DoApiCreate(cfg, s, id, ok);
    if t.store == s.store {
      FrameKeepsSettling(s, t, id);
    } else {
      CreationKeepsSettling(s, t, id, ChannelSet(s.calls[id].req.channels));
    }
  }

  lemma CreationKeepsSettling(s: State, t: State, id: Id, channels: set<string>)
    requires Settling(s, id) && !TakenUp(s, id) && id !in s.store.rows && PendingOk(s.store)
    requires t.store == Create(s.store, id, channels)
    requires t.log == s.log && t.next == s.next && t.consumer == s.consumer
    ensures Settling(t, id)
  {
    forall off | 0 <= off < s.next && off < |s.log| && s.log[off].Msg? ensures s.log[off].id != id {
    }
    assert !HasInHand(s, id);
  }

  // ---------------------------------------------------------------- every run

  lemma StepKeepsSettling(cfg: Config, s: State, a: Action, id: Id)
    requires LogOk(cfg, s) && Working(cfg, s) && PendingOk(s.store) && Settling(s, id) && CalmStep(cfg, s, a, id)
    ensures Settling(Step(cfg, s, a), id)
  {
    if Aside(s, a, id) {
      AsideKeepsSettling(cfg, s, a, id);
    } else {
      match a {
        case Work(ok) => WorkKeepsSettling(cfg, s, ok, id);
        case Hook(who, u) => HookKeepsSettling(cfg, s, who, u);
        case ApiCreate(_, ok) => CreateKeepsSettling(cfg, s, id, ok);
        case Crash(resume) => CrashKeepsSettling(cfg, s, resume, id);
      }
    }
  }

  lemma {:induction false} CalmRunsSettle(cfg: Config, run: seq<Action>, id: Id)
    requires Calm(cfg, run, id)
    ensures Settling(Exec(cfg, START, run), id)
  {
    if run != [] {
      var r := run[..|run| - 1];
      CalmRunsSettle(cfg, r, id);
      AlwaysLogOk(cfg, r);
      AlwaysWorking(cfg, r);
      PendingHaveRows(cfg, r);
      StepKeepsSettling(cfg, Exec(cfg, START, r), run[|run| - 1], id);
    }
  }

  // ---------------------------------------------------------------- the theorems

  /** All channels terminal, and the status that goes with them: COMPLETED when all are COMPLETED,
      PARTIAL_FAILURE otherwise. */
  ghost predicate FinishedRow(r: Row) {
    && (forall c :: c in r.channels ==> Terminal(r.channels[c]))
    && r.status == if forall c :: c in r.channels ==> r.channels[c] == COMPLETED then COMPLETED else PARTIAL_FAILURE
  }

  ghost predicate Finished(s: State, id: Id, req: Request) {
    && id in s.store.rows
    && ChannelSet(req.channels) <= s.store.rows[id].channels.Keys
    && FinishedRow(s.store.rows[id])
  }

  /** A reachable row with channels is finished as soon as they are all terminal. */
  lemma SettledRowsAreFinished(d: Dialect, agg: Aggregator, s: Store, id: Id)
    requires agg == AggBy(d) && id in s.rows && Fits(agg, s, id, s.rows[id])
    requires s.births[id] != {} && SettledBut(s.rows[id], {})
    ensures s.births[id] <= s.rows[id].channels.Keys && FinishedRow(s.rows[id])
  {
    var r := s.rows[id];
    var c :| c in s.births[id];
    assert r.channels[c] != PENDING;
    TerminalRowsAggregate(d, r.channels);
  }

  lemma DrainedMessageIsFinished(d: Dialect, cfg: Config, s: State, i: nat)
    requires cfg.agg == AggBy(d) && LogOk(cfg, s) && Consistent(cfg.agg, s.store) && Drained(s)
    requires i < |s.log| && s.log[i].Msg? && s.log[i].req.channels != [] && s.log[i].id in s.store.rows
    requires Settling(s, s.log[i].id)
    ensures Finished(s, s.log[i].id, s.log[i].req)
  {
    var id, req := s.log[i].id, s.log[i].req;
    assert MessageOk(cfg, s, id, req);
    assert req.channels[0] in ChannelSet(req.channels);
    SettledRowsAreFinished(d, cfg.agg, s.store, id);
  }

  /** Quiescence: once the log is drained after any number of crashes and redeliveries, a logged
      message with channels is finished exactly when it has a row: all channels terminal, COMPLETED
      or PARTIAL_FAILURE, never ENQUEUED or PROCESSING. */
  lemma DrainedNotificationsAreSettled(d: Dialect, cfg: Config, run: seq<Action>, i: nat)
    requires cfg.agg == AggBy(d) && Drained(Exec(cfg, START, run))
    requires var s := Exec(cfg, START, run);
             i < |s.log| && s.log[i].Msg? && s.log[i].req.channels != [] && Calm(cfg, run, s.log[i].id)
    ensures var s := Exec(cfg, START, run);
            Finished(s, s.log[i].id, s.log[i].req) <==> s.log[i].id in s.store.rows
  {
    var s := Exec(cfg, START, run);
    CalmRunsSettle(cfg, run, s.log[i].id);
    AlwaysLogOk(cfg, run);
    SystemRefinesSplitUpdates(cfg, run);
    if s.log[i].id in s.store.rows {
      DrainedMessageIsFinished(d, cfg, s, i);
    }
  }

  /** While its message is not logged, nothing but a webhook writes about a notification. */
  lemma NothingAboutUnlogged(cfg: Config, s: State, id: Id)
    requires AllHonest(cfg, s) && Unhooked(s, id) && !Logged(s.log, id)
    ensures forall u :: u in s.store.journal ==> u.id != id
  {
    forall u | u in s.store.journal ensures u.id != id {
      assert Honest(cfg, s, u);
    }
  }

  /** An orphan: a row whose message never reached the log, and no webhook reported on, is as created. */
  lemma OrphansStayEnqueued(cfg: Config, run: seq<Action>, id: Id)
    requires var s := Exec(cfg, START, run);
             id in s.store.rows && !Logged(s.log, id) && Unhooked(s, id)
    ensures var s := Exec(cfg, START, run);
            id in s.store.births && s.store.rows[id] == Initial(s.store.births[id])
  {
    AlwaysHonest(cfg, run);
    SystemRefinesSplitUpdates(cfg, run);
    NothingAboutUnlogged(cfg, Exec(cfg, START, run), id);
  }

  /** Every row, exactly: once the log is drained, a row created with channels that no webhook
      reported on is finished if and only if its message reached the log. A call whose send failed
      or that died in between leaves an orphan at ENQUEUED for good. */
  lemma FinishedIffLogged(d: Dialect, cfg: Config, run: seq<Action>, id: Id)
    requires cfg.agg == AggBy(d) && Calm(cfg, run, id) && Drained(Exec(cfg, START, run))
    requires var s := Exec(cfg, START, run);
             id in s.store.rows && id in s.store.births && s.store.births[id] != {} && Unhooked(s, id)
    ensures var s := Exec(cfg, START, run);
            && (FinishedRow(s.store.rows[id]) <==> Logged(s.log, id))
            && (!Logged(s.log, id) ==> s.store.rows[id] == Initial(s.store.births[id]))
  {
    var s := Exec(cfg, START, run);
    AlwaysLogOk(cfg, run);
    if Logged(s.log, id) {
      var i :| 0 <= i < |s.log| && s.log[i].Msg? && s.log[i].id == id;
      assert MessageOk(cfg, s, id, s.log[i].req);
      DrainedNotificationsAreSettled(d, cfg, run, i);
    } else {
      OrphansStayEnqueued(cfg, run, id);
      var c :| c in s.store.births[id];
      assert s.store.rows[id].channels[c] == PENDING;
    }
  }

  /** Of the logged messages with channels and quiet webhooks, exactly those with a row are finished. */
  ghost predicate LoggedSettled(s: State, run: seq<Action>) {
    forall i :: 0 <= i < |s.log| && s.log[i].Msg? && s.log[i].req.channels != [] && QuietHooks(run, s.log[i].id) ==>
      (Finished(s, s.log[i].id, s.log[i].req) <==> s.log[i].id in s.store.rows)
  }

  /** All of them are finished. */
  ghost predicate LoggedFinished(s: State, run: seq<Action>) {
    forall i :: 0 <= i < |s.log| && s.log[i].Msg? && s.log[i].req.channels != [] && QuietHooks(run, s.log[i].id) ==>
      Finished(s, s.log[i].id, s.log[i].req)
  }

  /** Of the rows created with channels that no webhook reported on, exactly those whose message
      reached the log are finished. */
  ghost predicate RowsSettled(s: State) {
    forall id :: id in s.store.rows && id in s.store.births && s.store.births[id] != {} && Unhooked(s, id) ==>
      (FinishedRow(s.store.rows[id]) <==> Logged(s.log, id))
  }

  lemma OrderlyRunsSettle(d: Dialect, cfg: Config, run: seq<Action>)
    requires cfg.agg == AggBy(d) && Orderly(cfg) && Drained(Exec(cfg, START, run))
    ensures var s := Exec(cfg, START, run);
            LoggedSettled(s, run) && RowsSettled(s)
  {
    var s := Exec(cfg, START, run);
    forall i | 0 <= i < |s.log| && s.log[i].Msg? && s.log[i].req.channels != [] && QuietHooks(run, s.log[i].id)
      ensures Finished(s, s.log[i].id, s.log[i].req) <==> s.log[i].id in s.store.rows
    {
      OrderlyRunsAreCalm(cfg, run, s.log[i].id);
      DrainedNotificationsAreSettled(d, cfg, run, i);
    }
    forall id | id in s.store.rows && id in s.store.births && s.store.births[id] != {} && Unhooked(s, id)
      ensures FinishedRow(s.store.rows[id]) <==> Logged(s.log, id)
    {
      OrderlyRunsAreCalm(cfg, run, id);
      FinishedIffLogged(d, cfg, run, id);
    }
  }

  lemma TerminalRowsAggregate(d: Dialect, m: map<string, string>)
    requires forall c :: c in m ==> Terminal(m[c])
    ensures Agg(d, m) == if forall c :: c in m ==> m[c] == COMPLETED then COMPLETED else PARTIAL_FAILURE
  {
  }

  /** A request without channels is never touched: in every reachable state its row is as created,
      ENQUEUED for good unless a webhook reports on it. */
  lemma EmptyRequestsStayEnqueued(cfg: Config, run: seq<Action>, i: nat)
    requires var s := Exec(cfg, START, run);
             && i < |s.log| && s.log[i].Msg? && s.log[i].req.channels == []
             && s.log[i].id in s.store.rows
             && forall u :: u in s.hooked ==> u.id != s.log[i].id
    ensures var s := Exec(cfg, START, run);
            s.store.rows[s.log[i].id] == Row(ENQUEUED, map[])
  {
    var s := Exec(cfg, START, run);
    var id := s.log[i].id;
    AlwaysHonest(cfg, run);
    AlwaysLogOk(cfg, run);
    SystemRefinesSplitUpdates(cfg, run);
    assert MessageOk(cfg, s, id, s.log[i].req);
    forall u | u in s.store.journal ensures u.id != id {
      if u.id == id {
        NothingBacksEmpty(cfg, s, u, i);
      }
    }
    assert !Hits(s.store.journal, id);
    assert Initial(ChannelSet([])).channels == map[];
  }

  lemma NothingBacksEmpty(cfg: Config, s: State, u: Update, i: nat)
    requires LogOk(cfg, s)
    requires i < |s.log| && s.log[i].Msg? && s.log[i].id == u.id && s.log[i].req.channels == []
    ensures forall off: nat, ci: nat :: !Backed(cfg, s, u, off, ci)
  {
  }
}
