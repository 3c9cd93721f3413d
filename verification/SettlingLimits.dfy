/** Where settling ends: the configurations in which a drained log leaves every logged notification
    finished, and what a webhook that is slow, or reports something not final, does to a row. */
module SettlingLimits {
  import opened Statuses
  import opened Traces
  import opened Deliveries
  import opened SplitUpdates
  import opened Protocol
  import opened DeliveryGuarantees
  import opened Intake
  import opened Quiescence
  import opened Draining

  // ---------------------------------------------------------------- letting the consumer work

  /** n consumer steps, every send succeeding. */
  function Steady(n: nat): seq<Action> {
    if n == 0 then [] else Steady(n - 1) + [Work(true)]
  }

  lemma {:induction false} SteadyCounts(n: nat)
    ensures Works(Steady(n)) == n && Crashes(Steady(n)) == 0
    ensures |Steady(n)| == n && forall k :: 0 <= k < n ==> Steady(n)[k] == Work(true)
  {
    if n > 0 {
      SteadyCounts(n - 1);
    }
  }

  /** The run, and then the consumer until the log is drained. */
  function Exhausted(cfg: Config, run: seq<Action>): seq<Action> {
    run + Steady(Remaining(cfg, Exec(cfg, START, run)))
  }

  lemma ExhaustedIsDrained(cfg: Config, run: seq<Action>)
    ensures var t := Exec(cfg, START, Exhausted(cfg, run));
            Drained(t) && t.log == Exec(cfg, START, run).log
  {
    var s := Exec(cfg, START, run);
    var n := Remaining(cfg, s);
    SteadyCounts(n);
    AlwaysWorking(cfg, run);
    EnoughWorkDrains(cfg, s, Steady(n));
    var k: nat :| DrainedAfter(cfg, s, Steady(n), k);
    assert Steady(n)[..k] == Steady(n);
    StillWorking(cfg, s, Steady(n));
    ExecAppend(cfg, START, run, Steady(n));
  }

  lemma {:induction false} SteadyKeeps<T>(view: seq<Action> -> T, run: seq<Action>, n: nat)
    requires forall r {:trigger view(r + [Work(true)])} :: view(r + [Work(true)]) == view(r)
    ensures view(run + Steady(n)) == view(run)
  {
    if n == 0 {
      assert run + Steady(0) == run;
    } else {
      SteadyKeeps(view, run, n - 1);
      assert run + Steady(n) == run + Steady(n - 1) + [Work(true)];
    }
  }

  /** What the consumer leaves alone: which rows exist, the calls in flight, and the webhooks' reports. */
  function Untouched(s: State): (set<Id>, map<Id, set<string>>, map<Id, Call>, set<Update>) {
    (s.store.rows.Keys, s.store.births, s.calls, s.hooked)
  }

  lemma WorkLeavesUntouched(cfg: Config, run: seq<Action>)
    ensures Untouched(Exec(cfg, START, run + [Work(true)])) == Untouched(Exec(cfg, START, run))
  {
    PendingHaveRows(cfg, run);
    OthersKeepRows(cfg, Exec(cfg, START, run), Work(true));
    WorkKeepsCalls(cfg, Exec(cfg, START, run));
    ExecSnoc(cfg, START, run, Work(true));
  }

  lemma WorkKeepsCalls(cfg: Config, s: State)
    ensures Step(cfg, s, Work(true)).calls == s.calls && Step(cfg, s, Work(true)).hooked == s.hooked
  {
  }

  lemma ExhaustedLeavesUntouched(cfg: Config, run: seq<Action>)
    ensures Untouched(Exec(cfg, START, Exhausted(cfg, run))) == Untouched(Exec(cfg, START, run))
  {
    var view := (r: seq<Action>) => Untouched(Exec(cfg, START, r));
    forall r ensures view(r + [Work(true)]) == view(r) {
      WorkLeavesUntouched(cfg, r);
    }
    SteadyKeeps(view, run, Remaining(cfg, Exec(cfg, START, run)));
  }

  // ---------------------------------------------------------------- which configurations settle

  lemma RowlessNeverFinishes(cfg: Config)
    requires !RowsFirst(cfg)
    ensures exists run :: Drained(Exec(cfg, START, run)) && !LoggedFinished(Exec(cfg, START, run), run)
  {
    var req := Request(["email"], [], "");
    var run := RowlessRun(cfg, "n", req);
    var all := Exhausted(cfg, run);
    var t := Exec(cfg, START, all);
    RowlessRunLeavesNoRow(cfg, "n", req);
    ExhaustedLeavesUntouched(cfg, run);
    ExhaustedIsDrained(cfg, run);
    QuietExhausted(cfg, run, "n");
    assert t.log[|t.log| - 1] == Msg("n", req) && "n" !in t.store.rows;
    assert !Finished(t, "n", req);
    assert Drained(t) && !LoggedFinished(t, all);
  }

  lemma QuietExhausted(cfg: Config, run: seq<Action>, id: Id)
    requires QuietHooks(run, id)
    ensures QuietHooks(Exhausted(cfg, run), id)
  {
    var n := Remaining(cfg, Exec(cfg, START, run));
    SteadyCounts(n);
    var all := Exhausted(cfg, run);
    forall k | 0 <= k < |all| ensures if k < |run| then all[k] == run[k] else all[k] == Work(true) {
      assert k >= |run| ==> all[k] == Steady(n)[k - |run|];
    }
  }

  /** A row as created, with channels, is not finished. */
  lemma InitialIsUnfinished(channels: set<string>)
    requires channels != {}
    ensures !FinishedRow(Initial(channels))
  {
    var c :| c in channels;
    assert Initial(channels).channels[c] == PENDING;
  }

  /** A logged message whose row is still as created is settled in neither sense. */
  lemma CreatedUnfinished(s: State, id: Id, req: Request, run: seq<Action>)
    requires s.log == [Msg(id, req)] && req.channels != [] && QuietHooks(run, id) && Unhooked(s, id)
    requires s.store.rows == map[id := Initial(ChannelSet(req.channels))]
    requires s.store.births == map[id := ChannelSet(req.channels)]
    ensures !LoggedSettled(s, run) && !RowsSettled(s)
  {
    assert req.channels[0] in ChannelSet(req.channels);
    InitialIsUnfinished(ChannelSet(req.channels));
    assert s.log[0] == Msg(id, req) && Logged(s.log, id);
    assert !Finished(s, id, req);
  }

  lemma LosingNeverFinishes(cfg: Config)
    requires cfg.marksOnReceipt
    ensures exists run ::
              var s := Exec(cfg, START, run);
              Drained(s) && !LoggedSettled(s, run) && !RowsSettled(s)
  {
    var req := Request(["email"], [], "");
    var run := LosingRun(cfg, "n", req);
    LosingRunLoses(cfg, "n", req);
    var t := Exec(cfg, START, run);
    CreatedUnfinished(t, "n", req, run);
  }

  /** The message is produced and consumed before its row is created. */
  function LateRun(cfg: Config, id: Id, req: Request): seq<Action> {
    Exhausted(cfg, [Accept(id, req), ApiProduce(id, true)]) + [ApiCreate(id, true)]
  }

  lemma LateRunLeavesPending(cfg: Config, id: Id, req: Request)
    requires cfg.order.ProduceThenCreate?
    ensures var run := LateRun(cfg, id, req);
            var t := Exec(cfg, START, run);
            && QuietHooks(run, id) && Drained(t) && t.log == [Msg(id, req)]
            && t.calls == map[] && t.hooked == {}
            && t.store.rows == map[id := Initial(ChannelSet(req.channels))]
            && t.store.births == map[id := ChannelSet(req.channels)]
  {
    var run := [Accept(id, req), ApiProduce(id, true)];
    ProducedFirst(cfg, id, req);
    ExhaustedLeavesUntouched(cfg, run);
    ExhaustedIsDrained(cfg, run);
    QuietExhausted(cfg, run, id);
    ExecSnoc(cfg, START, Exhausted(cfg, run), ApiCreate(id, true));
    CreatedAfterwards(cfg, Exec(cfg, START, Exhausted(cfg, run)), id, req);
  }

  lemma ProducedFirst(cfg: Config, id: Id, req: Request)
    requires cfg.order.ProduceThenCreate?
    ensures var s := Exec(cfg, START, [Accept(id, req), ApiProduce(id, true)]);
            && s.store == EMPTY && s.calls == map[id := Call(req, ToCreate)] && s.log == [Msg(id, req)] && s.hooked == {}
  {
    ExecSnoc(cfg, START, [], Accept(id, req));
    ExecSnoc(cfg, START, [Accept(id, req)], ApiProduce(id, true));
    assert [] + [Accept(id, req)] == [Accept(id, req)];
    assert [Accept(id, req)] + [ApiProduce(id, true)] == [Accept(id, req), ApiProduce(id, true)];
  }

  lemma CreatedAfterwards(cfg: Config, s: State, id: Id, req: Request)
    requires cfg.order.ProduceThenCreate? && Drained(s) && s.log == [Msg(id, req)] && s.hooked == {}
    requires s.calls == map[id := Call(req, ToCreate)] && s.store.rows == map[] && s.store.births == map[]
    ensures var t := Step(cfg, s, ApiCreate(id, true));
            && Drained(t) && t.log == s.log && t.calls == map[] && t.hooked == {}
            && t.store.rows == map[id := Initial(ChannelSet(req.channels))]
            && t.store.births == map[id := ChannelSet(req.channels)]
  {
    assert s.calls - {id} == map[];
  }

  lemma LateCreationNeverFinishes(cfg: Config)
    requires cfg.order.ProduceThenCreate?
    ensures exists run ::
              var s := Exec(cfg, START, run);
              Drained(s) && !LoggedSettled(s, run) && !RowsSettled(s)
  {
    var req := Request(["email"], [], "");
    var run := LateRun(cfg, "n", req);
    var t := Exec(cfg, START, run);
    LateRunLeavesPending(cfg, "n", req);
    CreatedUnfinished(t, "n", req, run);
  }

  /** Settling, read off the configuration: every drained log leaves exactly the logged notifications
      with a row finished, as far as their own webhooks report terminal statuses in one step, if and
      only if rows come before messages and no offset is marked before the work is done; and likewise
      exactly the rows whose message was logged, as far as no webhook reported on them. */
  lemma SettlingConfigurations(d: Dialect, cfg: Config)
    requires cfg.agg == AggBy(d)
    ensures (forall run :: Drained(Exec(cfg, START, run)) ==> LoggedSettled(Exec(cfg, START, run), run)) <==> Orderly(cfg)
    ensures (forall run :: Drained(Exec(cfg, START, run)) ==> RowsSettled(Exec(cfg, START, run))) <==> Orderly(cfg)
  {
    if cfg.marksOnReceipt {
      LosingNeverFinishes(cfg);
    } else if cfg.order.ProduceThenCreate? {
      LateCreationNeverFinishes(cfg);
    } else {
      forall run | Drained(Exec(cfg, START, run))
        ensures LoggedSettled(Exec(cfg, START, run), run) && RowsSettled(Exec(cfg, START, run))
      {
        OrderlyRunsSettle(d, cfg, run);
      }
    }
  }

  /** And it leaves all of them finished if and only if, besides, no failed creation is tolerated. */
  lemma FinishingConfigurations(d: Dialect, cfg: Config)
    requires cfg.agg == AggBy(d)
    ensures (forall run :: Drained(Exec(cfg, START, run)) ==> LoggedFinished(Exec(cfg, START, run), run)) <==>
            RowsFirst(cfg) && !cfg.marksOnReceipt
  {
    if !RowsFirst(cfg) {
      RowlessNeverFinishes(cfg);
    } else if cfg.marksOnReceipt {
      LosingNeverFinishes(cfg);
      var run :| Drained(Exec(cfg, START, run)) && !LoggedSettled(Exec(cfg, START, run), run);
      OnlyRowsMissing(Exec(cfg, START, run), run);
    } else {
      forall run | Drained(Exec(cfg, START, run)) ensures LoggedFinished(Exec(cfg, START, run), run) {
        OrderlyRunsSettle(d, cfg, run);
        SuccessfulCreationsSuffice(cfg, run);
      }
    }
  }

  lemma OnlyRowsMissing(s: State, run: seq<Action>)
    requires !LoggedSettled(s, run)
    ensures !LoggedFinished(s, run)
  {
  }

  /** Of the services: TypeScript, Java and Go settle what is logged and has a row, Rust does not;
      TypeScript and Java settle everything logged. */
  lemma SettlingServices(d: Dialect)
    ensures var cfg := ConfigOf(d);
            (forall run :: Drained(Exec(cfg, START, run)) ==> LoggedSettled(Exec(cfg, START, run), run)) <==>
            !d.Rust?
    ensures var cfg := ConfigOf(d);
            (forall run :: Drained(Exec(cfg, START, run)) ==> LoggedFinished(Exec(cfg, START, run), run)) <==>
            d.TypeScript? || d.Java?
  {
    SettlingConfigurations(d, ConfigOf(d));
    FinishingConfigurations(d, ConfigOf(d));
  }

  // ---------------------------------------------------------------- notifications without a message

  /** No configuration finishes every notification it accepted: in each, some run without a webhook or
      a crash drains the log, with no call in flight, and leaves a row as created for good. */
  lemma SomeRowStaysAsCreated(cfg: Config, id: Id, req: Request)
    requires req.channels != []
    ensures exists run ::
              var s := Exec(cfg, START, run);
              && Drained(s) && s.calls == map[] && s.hooked == {}
              && s.store.rows == map[id := Initial(ChannelSet(req.channels))]
              && !FinishedRow(s.store.rows[id])
  {
    assert req.channels[0] in ChannelSet(req.channels);
    InitialIsUnfinished(ChannelSet(req.channels));
    if cfg.order.CreateThenProduce? {
      OrphanRun(cfg, id, req);
    } else {
      LateRunLeavesPending(cfg, id, req);
    }
  }

  // ---------------------------------------------------------------- slow webhooks

  /** The webhook neither writes nor dies. */
  predicate StillWaiting(run: seq<Action>, who: nat) {
    forall k :: 0 <= k < |run| ==> run[k] != HookWrite(who) && run[k] != HookDies(who)
  }

  lemma StoreStepKeepsSnapshot(agg: Aggregator, s: Store, w: nat, step: StoreStep)
    requires w in s.pending && step != DoFinish(w) && step != DoAbandon(w)
    ensures w in Next(agg, s, step).pending && Next(agg, s, step).pending[w] == s.pending[w]
  {
  }

  lemma StepKeepsSnapshot(cfg: Config, s: State, who: nat, a: Action)
    requires who + 1 in s.store.pending && a != HookWrite(who) && a != HookDies(who)
    ensures var t := Step(cfg, s, a);
            who + 1 in t.store.pending && t.store.pending[who + 1] == s.store.pending[who + 1]
  {
    var steps := OnStore(cfg, s, a);
    StepRefines(cfg, s, a);
    if |steps| >= 1 {
      RunOne(cfg.agg, s.store, steps[0]);
      StoreStepKeepsSnapshot(cfg.agg, s.store, who + 1, steps[0]);
      if |steps| == 2 {
        assert steps[..1] == [steps[0]];
        StoreStepKeepsSnapshot(cfg.agg, Next(cfg.agg, s.store, steps[0]), who + 1, steps[1]);
      }
    }
  }

  /** Why webhooks must report in one step: one that has read the row rewinds it when it writes. All
      other channels return to what they were at its read, however many updates, crashes and
      redeliveries came between, and a drained log gives nobody a reason to mend them. A channel
      caught in PROCESSING stays so. */
  lemma {:induction false} SlowWebhookRewindsRow(cfg: Config, s: State, who: nat, u: Update, run: seq<Action>)
    requires who + 1 !in s.store.pending && u.id in s.store.rows && StillWaiting(run, who)
    ensures var t := Exec(cfg, Step(cfg, s, HookRead(who, u)), run);
            var t' := Step(cfg, t, HookWrite(who));
            && who + 1 in t.store.pending && t.store.pending[who + 1] == Pending(u, s.store.rows[u.id])
            && t'.store.rows == t.store.rows[u.id := Touch(cfg.agg, s.store.rows[u.id], u.channel, u.status)]
            && (forall c :: c in s.store.rows[u.id].channels && c != u.channel ==>
                  c in t'.store.rows[u.id].channels && t'.store.rows[u.id].channels[c] == s.store.rows[u.id].channels[c])
            && (Drained(t') <==> Drained(t))
  {
    if run != [] {
      var r := run[..|run| - 1];
      SlowWebhookRewindsRow(cfg, s, who, u, r);
      StepKeepsSnapshot(cfg, Exec(cfg, Step(cfg, s, HookRead(who, u)), r), who, run[|run| - 1]);
    }
  }

  /** In a reachable state, a message with channels is finished exactly when its row has nothing but
      terminal channels and the status that goes with them. */
  lemma FinishedIff(d: Dialect, cfg: Config, run: seq<Action>, i: nat)
    requires cfg.agg == AggBy(d)
    requires var s := Exec(cfg, START, run);
             i < |s.log| && s.log[i].Msg? && s.log[i].req.channels != []
    ensures var s := Exec(cfg, START, run);
            var id := s.log[i].id;
            Finished(s, id, s.log[i].req) <==>
            id in s.store.rows && forall c :: c in s.store.rows[id].channels ==> Terminal(s.store.rows[id].channels[c])
  {
    var s := Exec(cfg, START, run);
    var id := s.log[i].id;
    AlwaysLogOk(cfg, run);
    SystemRefinesSplitUpdates(cfg, run);
    assert MessageOk(cfg, s, id, s.log[i].req);
    if id in s.store.rows && forall c :: c in s.store.rows[id].channels ==> Terminal(s.store.rows[id].channels[c]) {
      assert s.log[i].req.channels[0] in ChannelSet(s.log[i].req.channels);
      SettledRowsAreFinished(d, cfg.agg, s.store, id);
    }
  }

  /** A webhook from its read to its write, with a run in between. */
  function SlowHook(before: seq<Action>, who: nat, u: Update, run: seq<Action>): seq<Action> {
    before + ([HookRead(who, u)] + run + [HookWrite(who)])
  }

  lemma SlowHookRuns(cfg: Config, before: seq<Action>, who: nat, u: Update, run: seq<Action>)
    ensures var s := Exec(cfg, START, before);
            Exec(cfg, START, SlowHook(before, who, u, run)) ==
            Step(cfg, Exec(cfg, Step(cfg, s, HookRead(who, u)), run), HookWrite(who))
  {
    var s := Exec(cfg, START, before);
    ExecAppend(cfg, START, before, [HookRead(who, u)] + run + [HookWrite(who)]);
    ExecSnoc(cfg, s, [HookRead(who, u)] + run, HookWrite(who));
    ExecAppend(cfg, s, [HookRead(who, u)], run);
    ExecSnoc(cfg, s, [], HookRead(who, u));
    assert [] + [HookRead(who, u)] == [HookRead(who, u)];
  }

  /** What a webhook leaves, exactly: however long it takes between its read and its write and
      whatever status it reports, the notification is finished after the write if and only if that
      status is terminal and every other channel was terminal when the webhook read the row. */
  lemma WebhookLeavesFinishedIff(d: Dialect, cfg: Config, before: seq<Action>, who: nat, u: Update,
        run: seq<Action>, i: nat)
    requires cfg.agg == AggBy(d) && StillWaiting(run, who)
    requires var s := Exec(cfg, START, before);
             who + 1 !in s.store.pending && u.id in s.store.rows
    requires var t := Exec(cfg, START, SlowHook(before, who, u, run));
             i < |t.log| && t.log[i].Msg? && t.log[i].id == u.id && t.log[i].req.channels != []
    ensures var s, t := Exec(cfg, START, before), Exec(cfg, START, SlowHook(before, who, u, run));
            Finished(t, u.id, t.log[i].req) <==>
            && Terminal(u.status)
            && forall c :: c in s.store.rows[u.id].channels && c != u.channel ==> Terminal(s.store.rows[u.id].channels[c])
  {
    var s, t := Exec(cfg, START, before), Exec(cfg, START, SlowHook(before, who, u, run));
    SlowHookRuns(cfg, before, who, u, run);
    SlowWebhookRewindsRow(cfg, s, who, u, run);
    FinishedIff(d, cfg, SlowHook(before, who, u, run), i);
    TouchedIsTerminalIff(s.store.rows[u.id].channels, u.channel, u.status);
    assert t.store.rows[u.id].channels == s.store.rows[u.id].channels[u.channel := u.status];
  }

  lemma TouchedIsTerminalIff(m: map<string, string>, c: string, v: string)
    ensures var n := m[c := v];
            (forall k :: k in n ==> Terminal(n[k])) <==> Terminal(v) && forall k :: k in m && k != c ==> Terminal(m[k])
  {
    var n := m[c := v];
    assert n[c] == v && forall k :: k in m && k != c ==> k in n && n[k] == m[k];
  }

  lemma HookIsReadAndWrite(cfg: Config, s: State, who: nat, u: Update)
    requires who + 1 !in s.store.pending
    ensures Step(cfg, s, Hook(who, u)) == Step(cfg, Step(cfg, s, HookRead(who, u)), HookWrite(who))
  {
  }

  lemma AtomicIsSlow(cfg: Config, before: seq<Action>, who: nat, u: Update)
    requires who + 1 !in Exec(cfg, START, before).store.pending
    ensures Exec(cfg, START, before + [Hook(who, u)]) == Exec(cfg, START, SlowHook(before, who, u, []))
  {
    SlowHookRuns(cfg, before, who, u, []);
    ExecSnoc(cfg, START, before, Hook(who, u));
    HookIsReadAndWrite(cfg, Exec(cfg, START, before), who, u);
  }

  lemma HookLeavesLog(cfg: Config, s: State, who: nat, u: Update)
    ensures Step(cfg, s, Hook(who, u)).log == s.log
  {
  }

  /** The same in one step, for a webhook that reads and writes with nothing in between. */
  lemma AtomicWebhookLeavesFinishedIff(d: Dialect, cfg: Config, before: seq<Action>, who: nat, u: Update, i: nat)
    requires cfg.agg == AggBy(d)
    requires var s := Exec(cfg, START, before);
             && who + 1 !in s.store.pending && u.id in s.store.rows
             && i < |s.log| && s.log[i].Msg? && s.log[i].id == u.id && s.log[i].req.channels != []
    ensures var s, t := Exec(cfg, START, before), Exec(cfg, START, before + [Hook(who, u)]);
            Finished(t, u.id, s.log[i].req) <==>
            && Terminal(u.status)
            && forall c :: c in s.store.rows[u.id].channels && c != u.channel ==> Terminal(s.store.rows[u.id].channels[c])
  {
    AtomicIsSlow(cfg, before, who, u);
    ExecSnoc(cfg, START, before, Hook(who, u));
    HookLeavesLog(cfg, Exec(cfg, START, before), who, u);
    WebhookLeavesFinishedIff(d, cfg, before, who, u, [], i);
  }

  // ---------------------------------------------------------------- a row left in PROCESSING

  const TWO_CHANNELS := Request(["sms", "email"], ["user"], "hi")

  /** The worker has written PROCESSING for the first channel and goes on to look up its adapter. */
  function InProgress(agg: Aggregator, id: Id): State {
    var m := map["sms" := PROCESSING, "email" := PENDING];
    Called(id, TWO_CHANNELS).(
      store := Store(map[id := Row(agg(m), m)], map[], map[id := {"sms", "email"}], [Update(id, "sms", PROCESSING)]),
      consumer := Busy(0, Lookup))
  }

  const THREE_STEPS := [Work(true), Work(true), Work(true)]

  lemma FirstSteps(cfg: Config, id: Id)
    ensures var s := Called(id, TWO_CHANNELS);
            var s1, s2 := Consume(cfg, s, true), Consume(cfg, Consume(cfg, s, true), true);
            && s2 == s.(store := Begin(s.store, WORKER, Update(id, "sms", PROCESSING)), consumer := Busy(0, StartWrite))
            && Consume(cfg, s2, true) == s.(store := Finish(cfg.agg, s2.store, WORKER), consumer := Busy(0, Lookup))
  {
  }

  lemma FirstWrite(agg: Aggregator, id: Id)
    ensures var u := Update(id, "sms", PROCESSING);
            Finish(agg, Begin(Called(id, TWO_CHANNELS).store, WORKER, u), WORKER) == InProgress(agg, id).store
  {
    var both := {"sms", "email"};
    assert ChannelSet(["sms", "email"]) == both by {
      assert ["sms", "email"][0] == "sms" && ["sms", "email"][1] == "email";
    }
    assert Initial(both).channels["sms" := PROCESSING] == map["sms" := PROCESSING, "email" := PENDING];
    assert map[id := Initial(both)][id := InProgress(agg, id).store.rows[id]] == InProgress(agg, id).store.rows;
    var p := Pending(Update(id, "sms", PROCESSING), Initial(both));
    assert map[][WORKER := p] - {WORKER} == map[];
  }

  lemma CaughtInProgress(cfg: Config, id: Id)
    ensures Exec(cfg, START, CallRun(cfg, id, TWO_CHANNELS, true, true) + THREE_STEPS) == InProgress(cfg.agg, id)
  {
    FirstCall(cfg, id, TWO_CHANNELS);
    ExecAppend(cfg, START, CallRun(cfg, id, TWO_CHANNELS, true, true), THREE_STEPS);
    ExecThree(cfg, Called(id, TWO_CHANNELS), Work(true), Work(true), Work(true));
    FirstSteps(cfg, id);
    FirstWrite(cfg.agg, id);
  }

  lemma RewoundAggregates(d: Dialect)
    ensures Agg(d, map["sms" := PROCESSING, "email" := COMPLETED]) == PROCESSING
  {
    var m := map["sms" := PROCESSING, "email" := COMPLETED];
    StagesArePlain(d, PROCESSING);
    StagesArePlain(d, COMPLETED);
    assert "sms" in m && m["sms"] == PROCESSING;
  }

  /** The webhook reports on the other channel: it reads the row now and writes after the work. */
  lemma LateWriteRewinds(d: Dialect, cfg: Config, id: Id, work: seq<Action>)
    requires cfg.agg == AggBy(d) && StillWaiting(work, 0)
    ensures var t := Exec(cfg, Step(cfg, InProgress(cfg.agg, id), HookRead(0, Update(id, "email", COMPLETED))), work);
            var t' := Step(cfg, t, HookWrite(0));
            && t'.log == t.log && (Drained(t') <==> Drained(t))
            && id in t'.store.rows
            && t'.store.rows[id] == Row(PROCESSING, map["sms" := PROCESSING, "email" := COMPLETED])
  {
    hide Exec;
    SlowWebhookRewindsRow(cfg, InProgress(cfg.agg, id), 0, Update(id, "email", COMPLETED), work);
    RewoundAggregates(d);
    assert map["sms" := PROCESSING, "email" := PENDING]["email" := COMPLETED] == map["sms" := PROCESSING, "email" := COMPLETED];
  }

  /** One more action, and then the consumer until the log is drained. */
  lemma WorkedOff(cfg: Config, before: seq<Action>, a: Action)
    ensures var s := Step(cfg, Exec(cfg, START, before), a);
            var work := Steady(Remaining(cfg, s));
            && Drained(Exec(cfg, s, work)) && Exec(cfg, s, work).log == s.log
            && StillWaiting(work, 0)
  {
    ExecSnoc(cfg, START, before, a);
    var s := Step(cfg, Exec(cfg, START, before), a);
    var n := Remaining(cfg, s);
    ExhaustedIsDrained(cfg, before + [a]);
    ExecAppend(cfg, START, before + [a], Steady(n));
    SteadyCounts(n);
  }

  /** In every configuration, whatever its order and marking, some run drains the log and leaves the
      notification at PROCESSING: the condition above is not idle. */
  lemma SlowWebhookLeavesProcessing(d: Dialect, cfg: Config, id: Id)
    requires cfg.agg == AggBy(d)
    ensures exists run ::
              var s := Exec(cfg, START, run);
              && Drained(s) && s.log == [Msg(id, TWO_CHANNELS)]
              && id in s.store.rows
              && s.store.rows[id] == Row(PROCESSING, map["sms" := PROCESSING, "email" := COMPLETED])
  {
    var u := Update(id, "email", COMPLETED);
    var before := CallRun(cfg, id, TWO_CHANNELS, true, true) + THREE_STEPS;
    CaughtInProgress(cfg, id);
    var s := InProgress(cfg.agg, id);
    var work := Steady(Remaining(cfg, Step(cfg, s, HookRead(0, u))));
    WorkedOff(cfg, before, HookRead(0, u));
    HookReadLeavesLog(cfg, s, u);
    LateWriteRewinds(d, cfg, id, work);
    SlowHookRuns(cfg, before, 0, u, work);
  }

  lemma HookReadLeavesLog(cfg: Config, s: State, u: Update)
    ensures Step(cfg, s, HookRead(0, u)).log == s.log
  {
  }
}
