/** Draining terminates, and with it every logged notification that has a row settles. */
module Draining {
  import opened Statuses
  import opened Traces
  import opened Deliveries
  import opened SplitUpdates
  import opened Protocol
  import opened DeliveryGuarantees
  import opened Intake
  import opened Quiescence
  import opened Services

  // ---------------------------------------------------------------- how much work is left

  /** Steps for one channel: read and write twice, the lookup, and the recipient loop. */
  function ChannelWork(cfg: Config, req: Request, c: string): nat {
    if cfg.sup(c) then 6 + |req.recipients| else 5
  }

  function ChannelsWork(cfg: Config, req: Request, ci: nat): nat
    decreases |req.channels| - ci
  {
    if ci >= |req.channels| then 0 else ChannelWork(cfg, req, req.channels[ci]) + ChannelsWork(cfg, req, ci + 1)
  }

  function EntryWork(cfg: Config, e: Entry): nat {
    match e
    case Poison => 1
    case Msg(_, req) => 2 + ChannelsWork(cfg, req, 0)
  }

  function LogWork(cfg: Config, log: seq<Entry>, from: nat): nat
    decreases |log| - from
  {
    if from >= |log| then 0 else EntryWork(cfg, log[from]) + LogWork(cfg, log, from + 1)
  }

  function PhaseWork(cfg: Config, req: Request, c: string, phase: Phase): nat {
    match phase
    case StartRead => ChannelWork(cfg, req, c)
    case StartWrite => ChannelWork(cfg, req, c) - 1
    case Lookup => ChannelWork(cfg, req, c) - 2
    case Sending(ri, _) => (if ri < |req.recipients| then |req.recipients| - ri else 0) + 3
    case EndRead(_) => 2
    case EndWrite(_) => 1
  }

  /** Work left on the message in hand from position ci on. */
  function HandWork(cfg: Config, req: Request, ci: nat, phase: Phase): nat {
    if ci < |req.channels| then PhaseWork(cfg, req, req.channels[ci], phase) + ChannelsWork(cfg, req, ci + 1) else 0
  }

  /** A bound on the consumer steps left if nothing more arrives and nothing crashes. */
  function Remaining(cfg: Config, s: State): nat {
    if s.next >= |s.log| then 0
    else match s.consumer
      case Idle => LogWork(cfg, s.log, s.next)
      case Busy(ci, phase) =>
        match s.log[s.next]
        case Poison => LogWork(cfg, s.log, s.next)
        case Msg(_, req) =>
          1 + LogWork(cfg, s.log, s.next + 1) + HandWork(cfg, req, ci, phase)
  }

  lemma DrainedMeansNoWork(cfg: Config, s: State)
    requires Working(cfg, s)
    ensures Drained(s) <==> Remaining(cfg, s) == 0
  {
  }

  lemma PhaseWorksOff(cfg: Config, s: State, id: Id, req: Request, ci: nat, phase: Phase, ok: bool)
    requires ci < |req.channels|
    ensures var c := OnChannel(cfg, s, id, req, ci, phase, ok).consumer;
            && c.Busy? && HandWork(cfg, req, c.ci, c.phase) < HandWork(cfg, req, ci, phase)
    ensures var t := OnChannel(cfg, s, id, req, ci, phase, ok);
            t.log == s.log && t.next == s.next
  {
  }

  lemma ChannelStepWorksOff(cfg: Config, s: State, ok: bool)
    requires Working(cfg, s) && s.consumer.Busy? && s.consumer.ci < |s.log[s.next].req.channels|
    ensures Remaining(cfg, Consume(cfg, s, ok)) < Remaining(cfg, s)
  {
    PhaseWorksOff(cfg, s, s.log[s.next].id, s.log[s.next].req, s.consumer.ci, s.consumer.phase, ok);
  }

  lemma EveryStepWorksOff(cfg: Config, s: State, ok: bool)
    requires Working(cfg, s)
    ensures !Drained(s) ==> Remaining(cfg, Consume(cfg, s, ok)) < Remaining(cfg, s)
    ensures Drained(s) ==> Consume(cfg, s, ok) == s
  {
    if s.consumer.Busy? && s.consumer.ci < |s.log[s.next].req.channels| {
      ChannelStepWorksOff(cfg, s, ok);
    }
  }

  lemma {:induction false} LogWorkFromStart(cfg: Config, log: seq<Entry>, from: nat)
    requires from <= |log|
    ensures LogWork(cfg, log, from) <= LogWork(cfg, log, 0)
  {
    if from > 0 {
      LogWorkFromStart(cfg, log, from - 1);
    }
  }

  lemma CrashCosts(cfg: Config, s: State, resume: nat)
    requires Working(cfg, s)
    ensures Remaining(cfg, Step(cfg, s, Crash(resume))) <= Remaining(cfg, s) + LogWork(cfg, s.log, 0)
  {
    if resume <= Marked(cfg, s) && resume <= |s.log| {
      LogWorkFromStart(cfg, s.log, resume);
    }
  }

  // ---------------------------------------------------------------- draining ends

  /** Nothing is appended to the log. Webhooks, creations and calls that die go on as they like. */
  predicate NoArrivals(run: seq<Action>) {
    forall k :: 0 <= k < |run| ==> !run[k].ApiProduce? && !run[k].PoisonArrives?
  }

  function Crashes(run: seq<Action>): nat {
    if run == [] then 0 else Crashes(run[..|run| - 1]) + if run[|run| - 1].Crash? then 1 else 0
  }

  function Works(run: seq<Action>): nat {
    if run == [] then 0 else Works(run[..|run| - 1]) + if run[|run| - 1].Work? then 1 else 0
  }

  predicate Busies(s: State, a: Action) {
    a.Work? && !Drained(s)
  }

  /** The consumer steps taken while there is something to do. */
  ghost function BusyWork(cfg: Config, s: State, run: seq<Action>): nat {
    if run == [] then 0
    else BusyWork(cfg, s, run[..|run| - 1]) + if Busies(Exec(cfg, s, run[..|run| - 1]), run[|run| - 1]) then 1 else 0
  }

  lemma OtherStepsCostNothing(cfg: Config, s: State, a: Action)
    requires !a.Work? && !a.Crash? && !a.ApiProduce? && !a.PoisonArrives?
    ensures var t := Step(cfg, s, a);
            t.log == s.log && t.next == s.next && t.consumer == s.consumer
  {
  }

  lemma LogStays(cfg: Config, s: State, a: Action)
    requires !a.ApiProduce? && !a.PoisonArrives?
    ensures Step(cfg, s, a).log == s.log
  {
  }

  lemma StepCosts(cfg: Config, s: State, a: Action)
    requires Working(cfg, s) && !a.ApiProduce? && !a.PoisonArrives?
    ensures Remaining(cfg, Step(cfg, s, a)) + (if Busies(s, a) then 1 else 0) <=
            Remaining(cfg, s) + if a.Crash? then LogWork(cfg, s.log, 0) else 0
  {
    match a {
      case Work(ok) => EveryStepWorksOff(cfg, s, ok);
      case Crash(resume) => CrashCosts(cfg, s, resume);
      case _ => OtherStepsCostNothing(cfg, s, a);
    }
  }

  lemma {:induction false} StillWorking(cfg: Config, s: State, run: seq<Action>)
    requires Working(cfg, s) && NoArrivals(run)
    ensures Working(cfg, Exec(cfg, s, run)) && Exec(cfg, s, run).log == s.log
  {
    if run != [] {
      var r, a := run[..|run| - 1], run[|run| - 1];
      StillWorking(cfg, s, r);
      StepKeepsWorking(cfg, Exec(cfg, s, r), a);
      LogStays(cfg, Exec(cfg, s, r), a);
    }
  }

  function Mul(k: nat, n: nat): nat {
    if k == 0 then 0 else Mul(k - 1, n) + n
  }

  lemma {:induction false} MulIsProduct(k: nat, n: nat)
    ensures Mul(k, n) == k * n
  {
    if k > 0 {
      MulIsProduct(k - 1, n);
    }
  }

  lemma CountsSnoc(cfg: Config, s: State, run: seq<Action>, a: Action, total: nat)
    ensures BusyWork(cfg, s, run + [a]) == BusyWork(cfg, s, run) + if Busies(Exec(cfg, s, run), a) then 1 else 0
    ensures Mul(Crashes(run + [a]), total) == Mul(Crashes(run), total) + if a.Crash? then total else 0
  {
  }

  lemma {:induction false} RunCosts(cfg: Config, s: State, run: seq<Action>)
    requires Working(cfg, s) && NoArrivals(run)
    ensures BusyWork(cfg, s, run) + Remaining(cfg, Exec(cfg, s, run)) <=
            Remaining(cfg, s) + Mul(Crashes(run), LogWork(cfg, s.log, 0))
  {
    if run != [] {
      var r, a := run[..|run| - 1], run[|run| - 1];
      assert run == r + [a];
      RunCosts(cfg, s, r);
      StillWorking(cfg, s, r);
      StepCosts(cfg, Exec(cfg, s, r), a);
      CountsSnoc(cfg, s, r, a, LogWork(cfg, s.log, 0));
      ExecSnoc(cfg, s, r, a);
    }
  }

  /** Draining terminates: while nothing arrives, a consumer that crashes k times takes at most the
      work left plus k times the work of the whole log, whatever webhooks, creations and dying calls
      come in between. */
  lemma DrainingTerminates(cfg: Config, s: State, run: seq<Action>)
    requires Working(cfg, s) && NoArrivals(run)
    ensures BusyWork(cfg, s, run) + Remaining(cfg, Exec(cfg, s, run)) <=
            Remaining(cfg, s) + Crashes(run) * LogWork(cfg, s.log, 0)
  {
    RunCosts(cfg, s, run);
    MulIsProduct(Crashes(run), LogWork(cfg, s.log, 0));
  }

  /** The log was drained at some moment of the run. */
  ghost predicate WasDrained(cfg: Config, s: State, run: seq<Action>) {
    Drained(Exec(cfg, s, run)) || (run != [] && WasDrained(cfg, s, run[..|run| - 1]))
  }

  lemma {:induction false} AllWorkIsBusy(cfg: Config, s: State, run: seq<Action>)
    ensures WasDrained(cfg, s, run) || BusyWork(cfg, s, run) == Works(run)
  {
    if run != [] {
      AllWorkIsBusy(cfg, s, run[..|run| - 1]);
    }
  }

  lemma {:induction false} StaysDrained(cfg: Config, s: State, run: seq<Action>)
    requires NoArrivals(run) && Crashes(run) == 0 && WasDrained(cfg, s, run)
    ensures Drained(Exec(cfg, s, run))
  {
    if run != [] && !Drained(Exec(cfg, s, run)) {
      StaysDrained(cfg, s, run[..|run| - 1]);
      DrainedStep(cfg, Exec(cfg, s, run[..|run| - 1]), run[|run| - 1]);
    }
  }

  lemma DrainedStep(cfg: Config, s: State, a: Action)
    requires Drained(s) && !a.ApiProduce? && !a.PoisonArrives? && !a.Crash?
    ensures Drained(Step(cfg, s, a))
  {
  }

  lemma {:induction false} DrainedWhen(cfg: Config, s: State, run: seq<Action>) returns (k: nat)
    requires WasDrained(cfg, s, run)
    ensures k <= |run| && Drained(Exec(cfg, s, run[..k]))
  {
    if Drained(Exec(cfg, s, run)) {
      k := |run|;
      assert run[..k] == run;
    } else {
      k := DrainedWhen(cfg, s, run[..|run| - 1]);
      assert run[..|run| - 1][..k] == run[..k];
    }
  }

  /** The moment up to which a run has to be followed to see the log drained: its end, if no crash
      makes the consumer go back. */
  ghost predicate DrainedAfter(cfg: Config, s: State, run: seq<Action>, k: nat) {
    && k <= |run| && Drained(Exec(cfg, s, run[..k]))
    && (Crashes(run) == 0 ==> k == |run|)
  }

  /** And it does end drained: enough consumer steps, whatever the sends return and whatever else
      happens in between, except arrivals. */
  lemma EnoughWorkDrains(cfg: Config, s: State, run: seq<Action>)
    requires Working(cfg, s) && NoArrivals(run)
    requires Works(run) >= Remaining(cfg, s) + Crashes(run) * LogWork(cfg, s.log, 0)
    ensures exists k: nat :: DrainedAfter(cfg, s, run, k)
  {
    if !WasDrained(cfg, s, run) {
      AllWorkIsBusy(cfg, s, run);
      DrainingTerminates(cfg, s, run);
      StillWorking(cfg, s, run);
      DrainedMeansNoWork(cfg, Exec(cfg, s, run));
    }
    if Crashes(run) == 0 {
      StaysDrained(cfg, s, run);
      assert run[..|run|] == run;
      assert DrainedAfter(cfg, s, run, |run|);
    } else {
      var k := DrainedWhen(cfg, s, run);
      assert DrainedAfter(cfg, s, run, k);
    }
  }

  // ---------------------------------------------------------------- every notification settles

  lemma CreationsPrefix(run: seq<Action>, tail: seq<Action>, k: nat)
    requires CreationsSucceed(run + tail) && k <= |tail|
    ensures CreationsSucceed(run + tail[..k])
  {
    var all := run + tail;
    assert forall i :: 0 <= i < |run| + k ==> (run + tail[..k])[i] == all[i];
  }

  lemma NoArrivalsPrefix(run: seq<Action>, k: nat)
    requires NoArrivals(run) && k <= |run|
    ensures NoArrivals(run[..k])
  {
  }

  /** After the run and the first k actions of its tail the log is drained, nothing having been added
      to it; every notification that webhooks left to itself is settled; and if no creation failed
      and was tolerated, every logged one is finished. */
  ghost predicate SettledAfter(cfg: Config, run: seq<Action>, tail: seq<Action>, k: nat) {
    && k <= |tail|
    && (Crashes(tail) == 0 ==> k == |tail|)
    && var t := Exec(cfg, START, run + tail[..k]);
       && Drained(t) && t.log == Exec(cfg, START, run).log
       && LoggedSettled(t, run + tail[..k]) && RowsSettled(t)
       && ((cfg.toleratesCreateFailure ==> CreationsSucceed(run + tail)) ==> LoggedFinished(t, run + tail[..k]))
  }

  /** Notifications settle: take any run of a system that creates rows first and marks after the work,
      with any crashes, redeliveries, dying API calls, bad messages and webhooks, and go on without
      arrivals until the consumer has taken a bounded number of steps, its sends returning anything,
      crashing and being crossed by webhooks as it goes. Then the log was drained, and still is at the
      end unless the tail has a crash; and there every notification whose own webhooks are quiet is
      COMPLETED or PARTIAL_FAILURE if its row was created and its message logged. */
  lemma NotificationsSettle(d: Dialect, cfg: Config, run: seq<Action>, tail: seq<Action>)
    requires cfg.agg == AggBy(d) && Orderly(cfg) && NoArrivals(tail)
    requires var s := Exec(cfg, START, run);
             Works(tail) >= Remaining(cfg, s) + Crashes(tail) * LogWork(cfg, s.log, 0)
    ensures exists k: nat :: SettledAfter(cfg, run, tail, k)
  {
    var s := Exec(cfg, START, run);
    AlwaysWorking(cfg, run);
    EnoughWorkDrains(cfg, s, tail);
    var k: nat :| DrainedAfter(cfg, s, tail, k);
    NoArrivalsPrefix(tail, k);
    StillWorking(cfg, s, tail[..k]);
    ExecAppend(cfg, START, run, tail[..k]);
    DrainedIsSettled(d, cfg, run, tail, k);
    assert SettledAfter(cfg, run, tail, k);
  }

  lemma DrainedIsSettled(d: Dialect, cfg: Config, run: seq<Action>, tail: seq<Action>, k: nat)
    requires cfg.agg == AggBy(d) && Orderly(cfg) && k <= |tail|
    requires Drained(Exec(cfg, START, run + tail[..k]))
    ensures var t := Exec(cfg, START, run + tail[..k]);
            && LoggedSettled(t, run + tail[..k]) && RowsSettled(t)
            && ((cfg.toleratesCreateFailure ==> CreationsSucceed(run + tail)) ==> LoggedFinished(t, run + tail[..k]))
  {
    OrderlyRunsSettle(d, cfg, run + tail[..k]);
    if cfg.toleratesCreateFailure ==> CreationsSucceed(run + tail) {
      if cfg.toleratesCreateFailure {
        CreationsPrefix(run, tail, k);
      }
      SuccessfulCreationsSuffice(cfg, run + tail[..k]);
    }
  }

  /** The services that create the row first: TypeScript and Java settle every logged notification,
      Go those whose row was created, so all logged ones if no creation fails. What QuietHooks asks of
      the webhooks on a notification the code does not see to: in TypeScript, findOneBy and save are
      two calls and a worker's may fall in between. */
  lemma RowFirstServicesSettle(d: Dialect, run: seq<Action>, tail: seq<Action>)
    requires !d.Rust? && NoArrivals(tail)
    requires var s := Exec(ConfigOf(d), START, run);
             Works(tail) >= Remaining(ConfigOf(d), s) + Crashes(tail) * LogWork(ConfigOf(d), s.log, 0)
    ensures exists k: nat ::
              && SettledAfter(ConfigOf(d), run, tail, k)
              && RowsRead(d, Exec(ConfigOf(d), START, run + tail[..k]).store.rows)
  {
    NotificationsSettle(d, ConfigOf(d), run, tail);
    var k: nat :| SettledAfter(ConfigOf(d), run, tail, k);
    ServiceStatuses(d, run + tail[..k]);
  }
}
