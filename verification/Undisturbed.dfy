/** A message delivered without interruption: the state machine does exactly what the worker loops do,
    and what follows for single recipients and for statuses already terminal. */
module Undisturbed {
  import opened Statuses
  import opened Traces
  import opened Deliveries
  import opened SplitUpdates
  import opened Protocol
  import opened DeliveryGuarantees

  /** The outcome the next step needs, if it is a send. */
  function Bit(s: State, o: Oracle): bool {
    s.consumer.Busy? && s.consumer.phase.Sending? && o(s.consumer.ci, s.consumer.phase.ri)
  }

  function Iterate(f: State -> State, s: State, n: nat): State {
    if n == 0 then s else f(Iterate(f, s, n - 1))
  }

  lemma {:induction false} IterateAppend(f: State -> State, s: State, m: nat, n: nat)
    ensures Iterate(f, s, m + n) == Iterate(f, Iterate(f, s, m), n)
  {
    if n > 0 {
      IterateAppend(f, s, m, n - 1);
    }
  }

  lemma IterateThen(f: State -> State, s: State, m: nat, t: State, n: nat)
    requires Iterate(f, s, m) == t
    ensures Iterate(f, s, m + n) == Iterate(f, t, n)
  {
    IterateAppend(f, s, m, n);
  }

  lemma IterateFew(f: State -> State, s: State)
    ensures Iterate(f, s, 1) == f(s)
    ensures Iterate(f, s, 2) == f(f(s))
    ensures Iterate(f, s, 3) == f(f(f(s)))
  {
  }

  /** f is the consumer with the outcomes of o. */
  ghost predicate Steps(cfg: Config, o: Oracle, f: State -> State) {
    forall s {:trigger Consume(cfg, s, Bit(s, o))} :: f(s) == Consume(cfg, s, Bit(s, o))
  }

  /** One whole update by the undisturbed worker: atomic, and journalled if the row exists. */
  function Written(cfg: Config, store: Store, u: Update): Store {
    store.(rows := Apply(cfg.agg, store.rows, u), journal := store.journal + if u.id in store.rows then [u] else [])
  }

  lemma ReadThenWrite(cfg: Config, store: Store, u: Update)
    requires WORKER !in store.pending
    ensures Finish(cfg.agg, Begin(store, WORKER, u), WORKER) == Written(cfg, store, u)
  {
  }

  predicate At(s: State, id: Id, req: Request, ci: nat, phase: Phase) {
    && s.next < |s.log| && s.log[s.next] == Msg(id, req)
    && s.consumer == Busy(ci, phase)
  }

  lemma OneStep(cfg: Config, o: Oracle, f: State -> State, s: State, id: Id, req: Request, ci: nat, phase: Phase)
    requires Steps(cfg, o, f) && ci < |req.channels| && At(s, id, req, ci, phase)
    ensures f(s) == OnChannel(cfg, s, id, req, ci, phase, Bit(s, o))
  {
    assert f(s) == Consume(cfg, s, Bit(s, o));
  }

  lemma OneSend(cfg: Config, o: Oracle, f: State -> State, s: State, id: Id, req: Request, ci: nat, ri: nat,
        allOk: bool)
    requires Steps(cfg, o, f) && ci < |req.channels| && At(s, id, req, ci, Sending(ri, allOk))
    ensures f(s) ==
            if ri >= |req.recipients| || (cfg.shape.FailFast? && !allOk)
            then s.(consumer := Busy(ci, EndRead(if allOk then COMPLETED else FAILED)))
            else s.(attempts := s.attempts + {Attempt(s.next, ci, ri, o(ci, ri))}, consumer := Busy(ci, Sending(ri + 1, allOk && o(ci, ri))))
  {
    OneStep(cfg, o, f, s, id, req, ci, Sending(ri, allOk));
  }

  /** A read and the write after it. */
  lemma ReadAndWrite(cfg: Config, o: Oracle, f: State -> State, s: State, id: Id, req: Request, ci: nat, phase: Phase)
    requires Steps(cfg, o, f) && ci < |req.channels| && At(s, id, req, ci, phase) && WORKER !in s.store.pending
    requires phase.StartRead? || phase.EndRead?
    ensures f(f(s)) ==
            if phase.StartRead?
            then s.(store := Written(cfg, s.store, Update(id, req.channels[ci], PROCESSING)), consumer := Busy(ci, Lookup))
            else s.(store := Written(cfg, s.store, Update(id, req.channels[ci], phase.st)), consumer := Busy(ci + 1, StartRead))
  {
    var u := Update(id, req.channels[ci], if phase.StartRead? then PROCESSING else phase.st);
    ReadThenWrite(cfg, s.store, u);
    OneStep(cfg, o, f, s, id, req, ci, phase);
    OneStep(cfg, o, f, f(s), id, req, ci, if phase.StartRead? then StartWrite else EndWrite(phase.st));
  }

  lemma AttemptsToNext(off: nat, ci: nat, o: Oracle, n: nat, before: set<Attempt>)
    ensures before + AttemptsTo(off, ci, o, n) + {Attempt(off, ci, n, o(ci, n))} == before + AttemptsTo(off, ci, o, n + 1)
  {
  }

  /** The recipient loop of the machine stops where the worker loop of the same shape does. */
  lemma {:induction false} DriveSends(cfg: Config, o: Oracle, f: State -> State, s: State, id: Id,
        req: Request, ci: nat, n: nat)
    requires Steps(cfg, o, f) && ci < |req.channels| && At(s, id, req, ci, Sending(0, true))
    requires n <= Attempted(cfg.shape, o, ci, |req.recipients|)
    ensures Iterate(f, s, n) ==
            s.(attempts := s.attempts + AttemptsTo(s.next, ci, o, n), consumer := Busy(ci, Sending(n, AllSent(o, ci, n))))
  {
    if n == 0 {
      assert s.attempts + AttemptsTo(s.next, ci, o, 0) == s.attempts;
    } else {
      DriveSends(cfg, o, f, s, id, req, ci, n - 1);
      AttemptedBefore(cfg.shape, o, ci, |req.recipients|, n);
      AttemptsToNext(s.next, ci, o, n - 1, s.attempts);
      OneSend(cfg, o, f, Iterate(f, s, n - 1), id, req, ci, n - 1, AllSent(o, ci, n - 1));
      assert AllSent(o, ci, n) <==> AllSent(o, ci, n - 1) && o(ci, n - 1);
    }
  }

  lemma AttemptedBefore(shape: Shape, o: Oracle, ci: nat, recipients: nat, n: nat)
    requires 0 < n <= Attempted(shape, o, ci, recipients)
    ensures shape.FailFast? ==> AllSent(o, ci, n - 1)
  {
    FailFastStopsAtFirstFailure(o, ci, recipients);
    if shape.FailFast? {
      forall j | 0 <= j < n - 1 ensures o(ci, j) {
        assert j + 1 < Attempted(FailFast, o, ci, recipients);
      }
    }
  }

  lemma DriveRecipients(cfg: Config, o: Oracle, f: State -> State, s: State, id: Id, req: Request, ci: nat)
    requires Steps(cfg, o, f) && ci < |req.channels| && At(s, id, req, ci, Sending(0, true))
    ensures var k := Attempted(cfg.shape, o, ci, |req.recipients|);
            Iterate(f, s, k + 1) ==
            s.(attempts := s.attempts + AttemptsTo(s.next, ci, o, k),
               consumer := Busy(ci, EndRead(if AllSent(o, ci, |req.recipients|) then COMPLETED else FAILED)))
  {
    var k := Attempted(cfg.shape, o, ci, |req.recipients|);
    DriveSends(cfg, o, f, s, id, req, ci, k);
    FailFastStopsAtFirstFailure(o, ci, |req.recipients|);
    assert AllSent(o, ci, k) <==> AllSent(o, ci, |req.recipients|);
    OneSend(cfg, o, f, Iterate(f, s, k), id, req, ci, k, AllSent(o, ci, k));
  }

  function StepsFor(cfg: Config, req: Request, o: Oracle, ci: nat): nat
    requires ci < |req.channels|
  {
    if cfg.sup(req.channels[ci]) then 6 + Attempted(cfg.shape, o, ci, |req.recipients|) else 5
  }

  function StepsForAll(cfg: Config, req: Request, o: Oracle, n: nat): nat
    requires n <= |req.channels|
  {
    if n == 0 then 0 else StepsForAll(cfg, req, o, n - 1) + StepsFor(cfg, req, o, n - 1)
  }

  /** What an undisturbed worker does to one channel. */
  function ChannelDone(cfg: Config, s: State, o: Oracle, id: Id, req: Request, ci: nat): State
    requires ci < |req.channels|
  {
    var c := req.channels[ci];
    s.(store := Written(cfg, Written(cfg, s.store, Update(id, c, PROCESSING)), Update(id, c, Outcome(cfg.sup, req, o, ci))),
       attempts := s.attempts + ChannelAttempts(cfg, s.next, req, o, ci),
       consumer := Busy(ci + 1, StartRead))
  }

  /** From the lookup's verdict to the next channel. */
  lemma DriveSupported(cfg: Config, o: Oracle, f: State -> State, s: State, id: Id, req: Request, ci: nat)
    requires Steps(cfg, o, f) && ci < |req.channels| && At(s, id, req, ci, Sending(0, true)) && WORKER !in s.store.pending
    ensures var k := Attempted(cfg.shape, o, ci, |req.recipients|);
            Iterate(f, s, k + 3) ==
            s.(store := Written(cfg, s.store, Update(id, req.channels[ci], if AllSent(o, ci, |req.recipients|) then COMPLETED else FAILED)),
               attempts := s.attempts + AttemptsTo(s.next, ci, o, k),
               consumer := Busy(ci + 1, StartRead))
  {
    var k := Attempted(cfg.shape, o, ci, |req.recipients|);
    var st := if AllSent(o, ci, |req.recipients|) then COMPLETED else FAILED;
    DriveRecipients(cfg, o, f, s, id, req, ci);
    var t := Iterate(f, s, k + 1);
    IterateThen(f, s, k + 1, t, 2);
    IterateFew(f, t);
    ReadAndWrite(cfg, o, f, t, id, req, ci, EndRead(st));
  }

  lemma DriveOpening(cfg: Config, o: Oracle, f: State -> State, s: State, id: Id, req: Request, ci: nat)
    requires Steps(cfg, o, f) && ci < |req.channels| && At(s, id, req, ci, StartRead) && WORKER !in s.store.pending
    ensures Iterate(f, s, 3) ==
            s.(store := Written(cfg, s.store, Update(id, req.channels[ci], PROCESSING)),
               consumer := Busy(ci, if cfg.sup(req.channels[ci]) then Sending(0, true) else EndRead(FAILED)))
  {
    ReadAndWrite(cfg, o, f, s, id, req, ci, StartRead);
    OneStep(cfg, o, f, f(f(s)), id, req, ci, Lookup);
    IterateFew(f, s);
  }

  lemma DriveChannel(cfg: Config, o: Oracle, f: State -> State, s: State, id: Id, req: Request, ci: nat)
    requires Steps(cfg, o, f) && ci < |req.channels| && At(s, id, req, ci, StartRead) && WORKER !in s.store.pending
    ensures Iterate(f, s, StepsFor(cfg, req, o, ci)) == ChannelDone(cfg, s, o, id, req, ci)
  {
    var n := StepsFor(cfg, req, o, ci);
    DriveOpening(cfg, o, f, s, id, req, ci);
    var t := Iterate(f, s, 3);
    IterateThen(f, s, 3, t, n - 3);
    if cfg.sup(req.channels[ci]) {
      DriveSupported(cfg, o, f, t, id, req, ci);
    } else {
      IterateFew(f, t);
      ReadAndWrite(cfg, o, f, t, id, req, ci, EndRead(FAILED));
      assert s.attempts + {} == s.attempts;
    }
  }

  /** The table after the first n channels of an undisturbed delivery. */
  function DeliveredTo(cfg: Config, store: Store, id: Id, req: Request, o: Oracle, n: nat): Store
    requires n <= |req.channels|
  {
    var us := Updates(cfg.sup, id, req, o, n);
    store.(rows := ApplyAll(cfg.agg, store.rows, us), journal := store.journal + if id in store.rows then us else [])
  }

  lemma DeliveredToNext(cfg: Config, store: Store, id: Id, req: Request, o: Oracle, n: nat)
    requires n < |req.channels|
    ensures var c := req.channels[n];
            Written(cfg, Written(cfg, DeliveredTo(cfg, store, id, req, o, n), Update(id, c, PROCESSING)),
                    Update(id, c, Outcome(cfg.sup, req, o, n))) ==
            DeliveredTo(cfg, store, id, req, o, n + 1)
  {
    var us := Updates(cfg.sup, id, req, o, n);
    var u, v := ChannelUpdates(cfg.sup, id, req, o, n)[0], ChannelUpdates(cfg.sup, id, req, o, n)[1];
    ApplyAllSnoc(cfg.agg, store.rows, us, u);
    ApplyAllSnoc(cfg.agg, store.rows, us + [u], v);
    assert us + [u] + [v] == Updates(cfg.sup, id, req, o, n + 1);
    ReplayKeys(cfg.agg, store.rows, us);
    ReplayKeys(cfg.agg, store.rows, us + [u]);
    if id in store.rows {
      assert store.journal + us + [u] + [v] == store.journal + (us + [u] + [v]);
    } else {
      assert store.journal + [] + [] + [] == store.journal;
    }
  }

  /** The state after the first n channels of an undisturbed delivery. */
  function ChannelsDone(cfg: Config, s: State, o: Oracle, id: Id, req: Request, n: nat): State
    requires n <= |req.channels|
  {
    s.(store := DeliveredTo(cfg, s.store, id, req, o, n),
       attempts := s.attempts + AttemptsOf(cfg, s.next, req, o, n),
       consumer := Busy(n, StartRead))
  }

  lemma ChannelsDoneNext(cfg: Config, s: State, o: Oracle, id: Id, req: Request, n: nat)
    requires n < |req.channels|
    ensures ChannelDone(cfg, ChannelsDone(cfg, s, o, id, req, n), o, id, req, n) == ChannelsDone(cfg, s, o, id, req, n + 1)
  {
    DeliveredToNext(cfg, s.store, id, req, o, n);
    assert s.attempts + AttemptsOf(cfg, s.next, req, o, n) + ChannelAttempts(cfg, s.next, req, o, n) ==
      s.attempts + AttemptsOf(cfg, s.next, req, o, n + 1);
  }

  lemma DriveOneMore(cfg: Config, o: Oracle, f: State -> State, s: State, id: Id, req: Request, n: nat, m: nat)
    requires Steps(cfg, o, f) && n < |req.channels| && At(s, id, req, 0, StartRead) && WORKER !in s.store.pending
    requires Iterate(f, s, m) == ChannelsDone(cfg, s, o, id, req, n)
    ensures Iterate(f, s, m + StepsFor(cfg, req, o, n)) == ChannelsDone(cfg, s, o, id, req, n + 1)
  {
    var t := ChannelsDone(cfg, s, o, id, req, n);
    IterateThen(f, s, m, t, StepsFor(cfg, req, o, n));
    DriveChannel(cfg, o, f, t, id, req, n);
    ChannelsDoneNext(cfg, s, o, id, req, n);
  }

  lemma NoChannelsDone(cfg: Config, s: State, o: Oracle, id: Id, req: Request)
    requires At(s, id, req, 0, StartRead)
    ensures ChannelsDone(cfg, s, o, id, req, 0) == s
  {
  }

  lemma {:induction false} DriveChannels(cfg: Config, o: Oracle, f: State -> State, s: State, id: Id,
        req: Request, n: nat)
    requires Steps(cfg, o, f) && n <= |req.channels| && At(s, id, req, 0, StartRead) && WORKER !in s.store.pending
    ensures Iterate(f, s, StepsForAll(cfg, req, o, n)) == ChannelsDone(cfg, s, o, id, req, n)
  {
    hide ChannelsDone, StepsFor;
    if n == 0 {
      NoChannelsDone(cfg, s, o, id, req);
    } else {
      DriveChannels(cfg, o, f, s, id, req, n - 1);
      DriveOneMore(cfg, o, f, s, id, req, n - 1, StepsForAll(cfg, req, o, n - 1));
    }
  }

  lemma TakeUp(cfg: Config, o: Oracle, f: State -> State, s: State, id: Id, req: Request)
    requires Steps(cfg, o, f)
    requires s.next < |s.log| && s.log[s.next] == Msg(id, req) && s.consumer.Idle?
    ensures f(s) == s.(consumer := Busy(0, StartRead))
  {
    assert f(s) == Consume(cfg, s, Bit(s, o));
  }

  lemma MarkDone(cfg: Config, o: Oracle, f: State -> State, s: State, id: Id, req: Request)
    requires Steps(cfg, o, f) && At(s, id, req, |req.channels|, StartRead)
    ensures f(s) == s.(next := s.next + 1, consumer := Idle)
  {
    assert f(s) == Consume(cfg, s, Bit(s, o));
  }

  /** From the fetch to the last channel. */
  lemma DriveToEnd(cfg: Config, o: Oracle, f: State -> State, s: State, id: Id, req: Request)
    requires Steps(cfg, o, f)
    requires s.next < |s.log| && s.log[s.next] == Msg(id, req) && s.consumer.Idle? && WORKER !in s.store.pending
    ensures Iterate(f, s, 1 + StepsForAll(cfg, req, o, |req.channels|)) ==
            ChannelsDone(cfg, s.(consumer := Busy(0, StartRead)), o, id, req, |req.channels|)
  {
    var s1 := s.(consumer := Busy(0, StartRead));
    TakeUp(cfg, o, f, s, id, req);
    IterateFew(f, s);
    IterateThen(f, s, 1, s1, StepsForAll(cfg, req, o, |req.channels|));
    DriveChannels(cfg, o, f, s1, id, req, |req.channels|);
  }

  lemma AtTheEnd(cfg: Config, o: Oracle, s: State, id: Id, req: Request)
    requires At(s, id, req, 0, StartRead)
    ensures At(ChannelsDone(cfg, s, o, id, req, |req.channels|), id, req, |req.channels|, StartRead)
  {
  }

  lemma DriveMessage(cfg: Config, o: Oracle, f: State -> State, s: State, id: Id, req: Request)
    requires Steps(cfg, o, f)
    requires s.next < |s.log| && s.log[s.next] == Msg(id, req) && s.consumer.Idle? && WORKER !in s.store.pending
    ensures Iterate(f, s, StepsForAll(cfg, req, o, |req.channels|) + 2) ==
            ChannelsDone(cfg, s, o, id, req, |req.channels|).(next := s.next + 1, consumer := Idle)
  {
    hide StepsForAll, Steps;
    var n := 1 + StepsForAll(cfg, req, o, |req.channels|);
    var s1 := s.(consumer := Busy(0, StartRead));
    var s2 := ChannelsDone(cfg, s1, o, id, req, |req.channels|);
    DriveToEnd(cfg, o, f, s, id, req);
    AtTheEnd(cfg, o, s1, id, req);
    MarkDone(cfg, o, f, s2, id, req);
    IterateThen(f, s, n, s2, 1);
    IterateFew(f, s2);
  }

  /** The consumer with the outcomes of o. */
  function ConsumerWith(cfg: Config, o: Oracle): State -> State {
    (s: State) => Consume(cfg, s, Bit(s, o))
  }

  /** Left alone from one message to the next, the machine with its split reads and writes performs
      exactly the updates and the sends of the worker loops, and marks the message. */
  lemma UndisturbedDelivery(cfg: Config, o: Oracle, s: State, id: Id, req: Request)
    requires s.next < |s.log| && s.log[s.next] == Msg(id, req) && s.consumer.Idle? && WORKER !in s.store.pending
    ensures var us := AllUpdates(cfg.sup, id, req, o);
            Iterate(ConsumerWith(cfg, o), s, StepsForAll(cfg, req, o, |req.channels|) + 2) ==
            s.(store := s.store.(rows := ApplyAll(cfg.agg, s.store.rows, us),
                                 journal := s.store.journal + if id in s.store.rows then us else []),
               attempts := s.attempts + AttemptsOf(cfg, s.next, req, o, |req.channels|),
               next := s.next + 1)
  {
    DriveMessage(cfg, o, ConsumerWith(cfg, o), s, id, req);
  }

  /** Those steps as actions of a run. */
  function Driven(cfg: Config, o: Oracle, s: State, n: nat): seq<Action> {
    if n == 0 then [] else Driven(cfg, o, s, n - 1) + [Work(Bit(Iterate(ConsumerWith(cfg, o), s, n - 1), o))]
  }

  lemma {:induction false} DrivenIsIterate(cfg: Config, o: Oracle, s: State, n: nat)
    ensures Exec(cfg, s, Driven(cfg, o, s, n)) == Iterate(ConsumerWith(cfg, o), s, n)
  {
    hide Consume, Bit;
    if n > 0 {
      var t := Iterate(ConsumerWith(cfg, o), s, n - 1);
      DrivenIsIterate(cfg, o, s, n - 1);
      ExecSnoc(cfg, s, Driven(cfg, o, s, n - 1), Work(Bit(t, o)));
      assert ConsumerWith(cfg, o)(t) == Consume(cfg, t, Bit(t, o));
    }
  }

  /** One undisturbed delivery of the message at hand. */
  function Delivery(cfg: Config, o: Oracle, s: State, req: Request): seq<Action> {
    Driven(cfg, o, s, StepsForAll(cfg, req, o, |req.channels|) + 2)
  }

  lemma DeliveryRuns(cfg: Config, o: Oracle, s: State, id: Id, req: Request)
    requires s.next < |s.log| && s.log[s.next] == Msg(id, req) && s.consumer.Idle? && WORKER !in s.store.pending
    ensures var t := Exec(cfg, s, Delivery(cfg, o, s, req));
            && t.store.rows == ApplyAll(cfg.agg, s.store.rows, AllUpdates(cfg.sup, id, req, o))
            && t.store.journal == s.store.journal + (if id in s.store.rows then AllUpdates(cfg.sup, id, req, o) else [])
            && t.store.pending == s.store.pending
            && t.attempts == s.attempts + AttemptsOf(cfg, s.next, req, o, |req.channels|)
            && t.log == s.log && t.next == s.next + 1 && t.consumer.Idle? && t.hooked == s.hooked
  {
    hide Iterate, ConsumerWith, Exec, Driven, StepsForAll, ApplyAll, AttemptsOf, Updates;
    DrivenIsIterate(cfg, o, s, StepsForAll(cfg, req, o, |req.channels|) + 2);
    UndisturbedDelivery(cfg, o, s, id, req);
  }

  // ---------------------------------------------------------------- every single recipient

  /** The promise taken strictly: before the consumer moves past a message, every recipient of every
      channel with an adapter was sent to, also behind one that failed. */
  ghost predicate EveryoneAttempted(cfg: Config, s: State) {
    && s.next <= |s.log|
    && forall off, ci, ri :: 0 <= off < s.next && s.log[off].Msg? && 0 <= ci < |s.log[off].req.channels| &&
                             cfg.sup(s.log[off].req.channels[ci]) && 0 <= ri < |s.log[off].req.recipients| ==>
                               AttemptedAt(s, off, ci, ri)
  }

  /** Two recipients, the first send fails: the fail-fast worker passes on without the second. */
  lemma FailFastLeavesOneOut(cfg: Config, c: string)
    requires cfg.shape.FailFast? && cfg.sup(c)
    ensures exists run :: !EveryoneAttempted(cfg, Exec(cfg, START, run))
  {
    var req := Request([c], ["first", "second"], "");
    var o: Oracle := (i: nat, j: nat) => false;
    var s := Called("n", req);
    var call := CallRun(cfg, "n", req, true, true);
    FirstCall(cfg, "n", req);
    DeliveryRuns(cfg, o, s, "n", req);
    ExecAppend(cfg, START, call, Delivery(cfg, o, s, req));
    var t := Exec(cfg, START, call + Delivery(cfg, o, s, req));
    FailFastStopsAtFirstFailure(o, 0, 2);
    assert Attempted(FailFast, o, 0, 2) == 1;
    OneAttempt(cfg, req, o);
    assert t.log[0] == Msg("n", req) && !AttemptedAt(t, 0, 0, 1);
  }

  lemma OneAttempt(cfg: Config, req: Request, o: Oracle)
    requires |req.channels| == 1 && Attempted(cfg.shape, o, 0, |req.recipients|) <= 1
    ensures forall a :: a in AttemptsOf(cfg, 0, req, o, 1) ==> a.ri == 0
  {
    assert AttemptsOf(cfg, 0, req, o, 1) == AttemptsOf(cfg, 0, req, o, 0) + ChannelAttempts(cfg, 0, req, o, 0);
  }

  lemma KeepGoingAttemptsEveryone(cfg: Config, run: seq<Action>)
    requires !cfg.marksOnReceipt && cfg.shape.KeepGoing?
    ensures EveryoneAttempted(cfg, Exec(cfg, START, run))
  {
    var s := Exec(cfg, START, run);
    MarkAfterWorkNeverSkips(cfg, run);
    AtLeastOnceIff(cfg, run);
    forall off, ci, ri | 0 <= off < s.next && s.log[off].Msg? && 0 <= ci < |s.log[off].req.channels| &&
                         cfg.sup(s.log[off].req.channels[ci]) && 0 <= ri < |s.log[off].req.recipients|
      ensures AttemptedAt(s, off, ci, ri)
    {
      KeepGoingReachesEveryone(cfg, s, off, ci, ri);
    }
  }

  /** Taken strictly, the promise is kept in every reachable state if and only if offsets are marked
      after the work and a failed send does not end the recipient loop, or no channel has an adapter.
      So Java, which marks after the work but leaves the loop, does not keep it. */
  lemma EveryoneConfigurations(cfg: Config)
    ensures (forall run :: EveryoneAttempted(cfg, Exec(cfg, START, run))) <==>
            (!cfg.marksOnReceipt && cfg.shape.KeepGoing?) || forall c :: !cfg.sup(c)
  {
    if c :| cfg.sup(c) && cfg.marksOnReceipt {
      var req := Request([c], ["user"], "");
      MarkOnReceiptLosesMessages(cfg, "n", req);
      LosingRunLoses(cfg, "n", req);
      var s := Exec(cfg, START, LosingRun(cfg, "n", req));
      assert s.log[0] == Msg("n", req) && !AttemptedAt(s, 0, 0, 0);
      assert !EveryoneAttempted(cfg, s);
    } else if c :| cfg.sup(c) && cfg.shape.FailFast? {
      FailFastLeavesOneOut(cfg, c);
    } else {
      forall run ensures EveryoneAttempted(cfg, Exec(cfg, START, run)) {
        if exists c :: cfg.sup(c) {
          KeepGoingAttemptsEveryone(cfg, run);
        } else {
          AlwaysWorking(cfg, run);
        }
      }
    }
  }

  // ---------------------------------------------------------------- terminal is not final

  /** Without any webhook a redelivery may turn a terminal status around: the consumer crashes after
      everything was sent and resumes from an offset marked before, and this time the sends fail. */
  lemma TerminalIsNotFinal(cfg: Config, id: Id, c: string)
    requires cfg.sup(c)
    ensures exists run, more ::
              var s, t := Exec(cfg, START, run), Exec(cfg, START, run + more);
              && Drained(s) && Drained(t) && t.hooked == {} && t.log == s.log
              && id in s.store.rows && c in s.store.rows[id].channels && s.store.rows[id].channels[c] == COMPLETED
              && id in t.store.rows && c in t.store.rows[id].channels && t.store.rows[id].channels[c] == FAILED
  {
    hide Step, Exec, Delivery, CallRun;
    var good: Oracle, bad: Oracle := (i: nat, j: nat) => true, (i: nat, j: nat) => false;
    var req := Request([c], ["user"], "");
    var s0 := Called(id, req);
    var first := Delivery(cfg, good, s0, req);
    var s1 := Exec(cfg, s0, first);
    FirstCall(cfg, id, req);
    Delivers(cfg, good, s0, id, c);
    BackToStart(cfg, s1);
    var s2 := Step(cfg, s1, Crash(0));
    var again := Delivery(cfg, bad, s2, req);
    assert !bad(0, 0);
    Delivers(cfg, bad, s2, id, c);
    var run, more := CallRun(cfg, id, req, true, true) + first, [Crash(0)] + again;
    ExecAppend(cfg, START, CallRun(cfg, id, req, true, true), first);
    ExecAppend(cfg, START, run, more);
    CrashThen(cfg, s1, again);
  }

  /** One channel and one recipient: the delivery drains the log and records the send's outcome. */
  lemma Delivers(cfg: Config, o: Oracle, s: State, id: Id, c: string)
    requires cfg.sup(c) && s.log == [Msg(id, Request([c], ["user"], ""))] && s.next == 0 && s.consumer.Idle?
    requires WORKER !in s.store.pending && id in s.store.rows
    ensures var t := Exec(cfg, s, Delivery(cfg, o, s, Request([c], ["user"], "")));
            && Drained(t) && t.log == s.log && t.hooked == s.hooked && t.store.pending == s.store.pending
            && id in t.store.rows && c in t.store.rows[id].channels
            && t.store.rows[id].channels[c] == if o(0, 0) then COMPLETED else FAILED
  {
    hide Exec, Delivery, ApplyAll, AllUpdates, AttemptsOf;
    var req := Request([c], ["user"], "");
    DeliveryRuns(cfg, o, s, id, req);
    DeliveryDecidesChannels(cfg.agg, cfg.sup, s.store.rows, id, req, o, c);
    assert c == req.channels[0] && LastIndex(req.channels, c) == 0;
    assert AllSent(o, 0, 1) <==> o(0, 0);
  }

  lemma BackToStart(cfg: Config, s: State)
    ensures var t := Step(cfg, s, Crash(0));
            && t.log == s.log && t.next == 0 && t.consumer.Idle? && t.hooked == s.hooked
            && t.store.rows == s.store.rows && WORKER !in t.store.pending
  {
  }

  lemma CrashThen(cfg: Config, s: State, again: seq<Action>)
    ensures Exec(cfg, s, [Crash(0)] + again) == Exec(cfg, Step(cfg, s, Crash(0)), again)
  {
    ExecAppend(cfg, s, [Crash(0)], again);
    ExecSnoc(cfg, s, [], Crash(0));
    assert [] + [Crash(0)] == [Crash(0)];
  }
}
