/** The whole system as a state machine: API calls in flight, the log, one consumer that crashes
    and resumes, webhooks, and the status table with its two-step updates. Each action names its
    nondeterminism; an action that is not enabled changes nothing, so a run is any action sequence. */
module Protocol {
  import opened Statuses
  import opened Traces
  import opened Deliveries
  import opened SplitUpdates

  /** TypeScript, Java and Go create the row and then produce the message; Rust the other way. */
  datatype Order = CreateThenProduce | ProduceThenCreate

  datatype Config = Config(
    agg: Aggregator,
    sup: Table,
    shape: Shape,
    order: Order,
    toleratesCreateFailure: bool,  // Go logs the failed creation and produces all the same
    marksOnReceipt: bool)          // Rust leaves the offset to auto-commit, Go marks after the work

  function ConfigOf(d: Dialect): Config {
    var agg, sup := AggBy(d), TableOf(AdaptersOf(d));
    match d
    case TypeScript => Config(agg, sup, KeepGoing, CreateThenProduce, false, false)
    case Java => Config(agg, sup, FailFast, CreateThenProduce, false, false)
    case Go => Config(agg, sup, KeepGoing, CreateThenProduce, true, false)
    case Rust => Config(agg, sup, KeepGoing, ProduceThenCreate, true, true)
  }

  /** An API call in flight. */
  datatype Stage = ToCreate | ToProduce
  datatype Call = Call(req: Request, stage: Stage)

  /** The consumer: idle before the entry at `next`, or at some channel of that message. */
  datatype Phase = StartRead | StartWrite | Lookup | Sending(ri: nat, allOk: bool) | EndRead(st: string) | EndWrite(st: string)
  datatype Consumer = Idle | Busy(ci: nat, phase: Phase)

  /** A send attempted for channel position ci and recipient position ri of the entry at off. */
  datatype Attempt = Attempt(off: nat, ci: nat, ri: nat, ok: bool)

  datatype State = State(
    store: Store,
    log: seq<Entry>,
    next: nat,                 // first entry not yet consumed by this session
    consumer: Consumer,
    calls: map<Id, Call>,
    used: set<Id>,
    attempts: set<Attempt>,    // every send ever attempted
    hooked: set<Update>,       // every update ever reported by a webhook
    created: nat)              // rows successfully created

  const START := State(EMPTY, [], 0, Idle, map[], {}, {}, {}, 0)

  datatype Action =
    | Accept(id: Id, req: Request)
    | ApiCreate(id: Id, ok: bool)
    | ApiProduce(id: Id, ok: bool)
    | ApiDies(id: Id)
    | PoisonArrives
    | Work(ok: bool)           // one step of the consumer; ok is the outcome if it is a send
    | Crash(resume: nat)       // the consumer dies and resumes from an offset it had marked
    | HookRead(who: nat, u: Update)
    | HookWrite(who: nat)
    | HookDies(who: nat)
    | Hook(who: nat, u: Update)  // read and write with nothing in between

  /** Webhook handlers are updaters 1, 2, ...; the consumer is updater 0. */
  const WORKER: nat := 0

  function FirstStage(cfg: Config): Stage {
    if cfg.order.CreateThenProduce? then ToCreate else ToProduce
  }

  function DoApiCreate(cfg: Config, s: State, id: Id, ok: bool): State {
    if id !in s.calls || s.calls[id].stage != ToCreate then s
    else
      var req := s.calls[id].req;
      var s' := if ok && id !in s.store.rows
                then s.(store := Create(s.store, id, ChannelSet(req.channels)), created := s.created + 1) else s;
      if cfg.order.CreateThenProduce? && (ok || cfg.toleratesCreateFailure)
      then s'.(calls := s.calls[id := Call(req, ToProduce)])
      else s'.(calls := s.calls - {id})
  }

  function DoApiProduce(cfg: Config, s: State, id: Id, ok: bool): State {
    if id !in s.calls || s.calls[id].stage != ToProduce then s
    else
      var req := s.calls[id].req;
      var s' := if ok then s.(log := s.log + [Msg(id, req)]) else s;
      if cfg.order.ProduceThenCreate? && ok
      then s'.(calls := s.calls[id := Call(req, ToCreate)])
      else s'.(calls := s.calls - {id})
  }

  /** One step on the channel at position ci of the message at s.next. */
  function OnChannel(cfg: Config, s: State, id: Id, req: Request, ci: nat, phase: Phase, ok: bool): State
    requires ci < |req.channels|
  {
    var c := req.channels[ci];
    match phase
    case StartRead =>
      s.(store := Begin(s.store, WORKER, Update(id, c, PROCESSING)), consumer := Busy(ci, StartWrite))
    case StartWrite =>
      s.(store := Finish(cfg.agg, s.store, WORKER), consumer := Busy(ci, Lookup))
    case Lookup =>
      s.(consumer := Busy(ci, if cfg.sup(c) then Sending(0, true) else EndRead(FAILED)))
    case Sending(ri, allOk) =>
      if ri >= |req.recipients| || (cfg.shape.FailFast? && !allOk)
      then s.(consumer := Busy(ci, EndRead(if allOk then COMPLETED else FAILED)))
      else s.(attempts := s.attempts + {Attempt(s.next, ci, ri, ok)}, consumer := Busy(ci, Sending(ri + 1, allOk && ok)))
    case EndRead(st) =>
      s.(store := Begin(s.store, WORKER, Update(id, c, st)), consumer := Busy(ci, EndWrite(st)))
    case EndWrite(st) =>
      s.(store := Finish(cfg.agg, s.store, WORKER), consumer := Busy(ci + 1, StartRead))
  }

  /** One step of the consumer. After the last channel the message is marked. */
  function Consume(cfg: Config, s: State, ok: bool): State {
    if s.next >= |s.log| then s
    else match s.log[s.next]
      case Poison => s.(next := s.next + 1)
      case Msg(id, req) =>
        match s.consumer
        case Idle => s.(consumer := Busy(0, StartRead))
        case Busy(ci, phase) =>
          if ci < |req.channels| then OnChannel(cfg, s, id, req, ci, phase, ok)
          else s.(next := s.next + 1, consumer := Idle)
  }

  /** The highest offset a restart may resume from. */
  function Marked(cfg: Config, s: State): nat {
    if cfg.marksOnReceipt && s.consumer.Busy? then s.next + 1 else s.next
  }

  function Step(cfg: Config, s: State, a: Action): State {
    match a
    case Accept(id, req) =>
      if id in s.used then s
      else s.(used := s.used + {id}, calls := s.calls[id := Call(req, FirstStage(cfg))])
    case ApiCreate(id, ok) => DoApiCreate(cfg, s, id, ok)
    case ApiProduce(id, ok) => DoApiProduce(cfg, s, id, ok)
    case ApiDies(id) => s.(calls := s.calls - {id})
    case PoisonArrives => s.(log := s.log + [Poison])
    case Work(ok) => Consume(cfg, s, ok)
    case Crash(resume) =>
      if resume <= Marked(cfg, s) then s.(store := Abandon(s.store, WORKER), next := resume, consumer := Idle) else s
    case HookRead(who, u) => s.(store := Begin(s.store, who + 1, u), hooked := s.hooked + {u})
    case HookWrite(who) => s.(store := Finish(cfg.agg, s.store, who + 1))
    case HookDies(who) => s.(store := Abandon(s.store, who + 1))
    case Hook(who, u) =>
      if who + 1 in s.store.pending then s
      else s.(store := Finish(cfg.agg, Begin(s.store, who + 1, u), who + 1), hooked := s.hooked + {u})
  }

  function Exec(cfg: Config, s: State, run: seq<Action>): State {
    if run == [] then s else Step(cfg, Exec(cfg, s, run[..|run| - 1]), run[|run| - 1])
  }

  lemma ExecSnoc(cfg: Config, s: State, run: seq<Action>, a: Action)
    ensures Exec(cfg, s, run + [a]) == Step(cfg, Exec(cfg, s, run), a)
  {
  }

  lemma {:induction false} ExecAppend(cfg: Config, s: State, a: seq<Action>, b: seq<Action>)
    ensures Exec(cfg, s, a + b) == Exec(cfg, Exec(cfg, s, a), b)
  {
    if b == [] {
      assert a + b == a;
    } else {
      ExecAppend(cfg, s, a, b[..|b| - 1]);
      assert (a + b)[..|a + b| - 1] == a + b[..|b| - 1];
    }
  }

  lemma ExecThree(cfg: Config, s: State, a: Action, b: Action, c: Action)
    ensures Exec(cfg, s, [a, b, c]) == Step(cfg, Step(cfg, Step(cfg, s, a), b), c)
  {
    ExecSnoc(cfg, s, [], a);
    ExecSnoc(cfg, s, [a], b);
    ExecSnoc(cfg, s, [a, b], c);
    assert [] + [a] == [a] && [a] + [b] == [a, b] && [a, b] + [c] == [a, b, c];
  }

  /** The actions of one call, one right after the other. */
  function CallRun(cfg: Config, id: Id, req: Request, storeUp: bool, brokerUp: bool): seq<Action> {
    if cfg.order.CreateThenProduce?
    then [Accept(id, req), ApiCreate(id, storeUp), ApiProduce(id, brokerUp)]
    else [Accept(id, req), ApiProduce(id, brokerUp), ApiCreate(id, storeUp)]
  }

  /** The state one undisturbed call leaves. */
  function Called(id: Id, req: Request): State {
    START.(store := Create(EMPTY, id, ChannelSet(req.channels)), log := [Msg(id, req)], used := {id}, created := 1)
  }

  lemma FirstCall(cfg: Config, id: Id, req: Request)
    ensures Exec(cfg, START, CallRun(cfg, id, req, true, true)) == Called(id, req)
  {
    var run := CallRun(cfg, id, req, true, true);
    ExecThree(cfg, START, run[0], run[1], run[2]);
    var first := if cfg.order.CreateThenProduce? then ToCreate else ToProduce;
    var second := if cfg.order.CreateThenProduce? then ToProduce else ToCreate;
    assert map[id := Call(req, first)][id := Call(req, second)] - {id} == map[];
    assert {} + {id} == {id};
  }

  /** Nothing left to consume. */
  predicate Drained(s: State) {
    s.next >= |s.log| && s.consumer.Idle?
  }

  // ---------------------------------------------------------------- the sends of one delivery

  /** The sends to the first n recipients of channel position ci. */
  function AttemptsTo(off: nat, ci: nat, o: Oracle, n: nat): set<Attempt> {
    set ri | 0 <= ri < n :: Attempt(off, ci, ri, o(ci, ri))
  }

  function AttemptsOf(cfg: Config, off: nat, req: Request, o: Oracle, n: nat): set<Attempt>
    requires n <= |req.channels|
  {
    if n == 0 then {}
    else AttemptsOf(cfg, off, req, o, n - 1) + ChannelAttempts(cfg, off, req, o, n - 1)
  }

  function ChannelAttempts(cfg: Config, off: nat, req: Request, o: Oracle, ci: nat): set<Attempt>
    requires ci < |req.channels|
  {
    if cfg.sup(req.channels[ci]) then AttemptsTo(off, ci, o, Attempted(cfg.shape, o, ci, |req.recipients|)) else {}
  }

  // ---------------------------------------------------------------- the table

  /** What a consumer step does to the table. */
  function WorkOnStore(cfg: Config, s: State): seq<StoreStep> {
    if s.next < |s.log| && s.log[s.next].Msg? && s.consumer.Busy? && s.consumer.ci < |s.log[s.next].req.channels| then
      var u := Update(s.log[s.next].id, s.log[s.next].req.channels[s.consumer.ci], PROCESSING);
      match s.consumer.phase
      case StartRead => [DoBegin(WORKER, u)]
      case StartWrite => [DoFinish(WORKER)]
      case Lookup => []
      case Sending(_, _) => []
      case EndRead(st) => [DoBegin(WORKER, u.(status := st))]
      case EndWrite(_) => [DoFinish(WORKER)]
    else []
  }

  /** What an action does to the table. */
  function OnStore(cfg: Config, s: State, a: Action): seq<StoreStep> {
    match a
    case ApiCreate(id, ok) =>
      if ok && id in s.calls && s.calls[id].stage == ToCreate then [DoCreate(id, ChannelSet(s.calls[id].req.channels))] else []
    case Work(ok) => WorkOnStore(cfg, s)
    case Crash(resume) => if resume <= Marked(cfg, s) then [DoAbandon(WORKER)] else []
    case HookRead(who, u) => [DoBegin(who + 1, u)]
    case HookWrite(who) => [DoFinish(who + 1)]
    case HookDies(who) => [DoAbandon(who + 1)]
    case Hook(who, u) => if who + 1 in s.store.pending then [] else [DoBegin(who + 1, u), DoFinish(who + 1)]
    case Accept(_, _) => []
    case ApiProduce(_, _) => []
    case ApiDies(_) => []
    case PoisonArrives => []
  }

  lemma RunOne(agg: Aggregator, s: Store, step: StoreStep)
    ensures Run(agg, s, [step]) == Next(agg, s, step)
  {
  }

  lemma StepRefines(cfg: Config, s: State, a: Action)
    ensures Step(cfg, s, a).store == Run(cfg.agg, s.store, OnStore(cfg, s, a))
  {
    var steps := OnStore(cfg, s, a);
    if |steps| == 1 {
      RunOne(cfg.agg, s.store, steps[0]);
    } else if a.Hook? && |steps| == 2 {
      RunOne(cfg.agg, s.store, steps[0]);
      assert steps[..1] == [steps[0]];
    }
  }

  ghost function RunOnStore(cfg: Config, run: seq<Action>): seq<StoreStep> {
    if run == [] then []
    else
      var r := run[..|run| - 1];
      RunOnStore(cfg, r) + OnStore(cfg, Exec(cfg, START, r), run[|run| - 1])
  }

  /** The system refines the machine of split updates: seen from the table, any run is one of its
      interleavings, so every row stays consistent whatever workers, webhooks and crashes do. */
  lemma {:induction false} SystemRefinesSplitUpdates(cfg: Config, run: seq<Action>)
    ensures Exec(cfg, START, run).store == Run(cfg.agg, EMPTY, RunOnStore(cfg, run))
    ensures Consistent(cfg.agg, Exec(cfg, START, run).store)
  {
    if run != [] {
      var r := run[..|run| - 1];
      SystemRefinesSplitUpdates(cfg, r);
      StepRefines(cfg, Exec(cfg, START, r), run[|run| - 1]);
      RunAppend(cfg.agg, EMPTY, RunOnStore(cfg, r), OnStore(cfg, Exec(cfg, START, r), run[|run| - 1]));
    }
    InterleavingsStayConsistent(cfg.agg, RunOnStore(cfg, run));
  }
}
