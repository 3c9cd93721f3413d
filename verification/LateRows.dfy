/** A row created while its message is already being consumed, as happens where the message goes first:
    when the notification is finished all the same. */
module LateRows {
  import opened Statuses
  import opened Traces
  import opened Deliveries
  import opened SplitUpdates
  import opened Protocol
  import opened DeliveryGuarantees
  import opened Intake
  import opened Quiescence
  import opened Redelivery

  // ---------------------------------------------------------------- the worker's update in flight

  predicate ByOthers(step: StoreStep) {
    step.DoCreate? || step.who != WORKER
  }

  predicate SameWorker(s: Store, t: Store) {
    && (WORKER in s.pending <==> WORKER in t.pending)
    && (WORKER in s.pending ==> t.pending[WORKER] == s.pending[WORKER])
  }

  lemma OthersLeaveWorker(agg: Aggregator, s: Store, step: StoreStep)
    requires ByOthers(step)
    ensures SameWorker(s, Next(agg, s, step))
  {
  }

  lemma ActionsByOthers(cfg: Config, s: State, a: Action)
    requires !a.Work? && !a.Crash?
    ensures |OnStore(cfg, s, a)| <= 2 && forall k :: 0 <= k < |OnStore(cfg, s, a)| ==> ByOthers(OnStore(cfg, s, a)[k])
    ensures Step(cfg, s, a).next == s.next && Step(cfg, s, a).consumer == s.consumer
  {
  }

  lemma ActionLeavesWorker(cfg: Config, s: State, a: Action)
    requires !a.Work? && !a.Crash?
    ensures SameWorker(s.store, Step(cfg, s, a).store)
  {
    var steps := OnStore(cfg, s, a);
    StepRefines(cfg, s, a);
    ActionsByOthers(cfg, s, a);
    if |steps| >= 1 {
      RunOne(cfg.agg, s.store, steps[0]);
      OthersLeaveWorker(cfg.agg, s.store, steps[0]);
      if |steps| == 2 {
        assert steps[..1] == [steps[0]];
        OthersLeaveWorker(cfg.agg, Next(cfg.agg, s.store, steps[0]), steps[1]);
      }
    }
  }

  lemma StepKeepsWorkerOk(cfg: Config, s: State, a: Action)
    requires Working(cfg, s) && WorkerOk(s)
    ensures InHand(Step(cfg, s, a)) && WorkerOk(Step(cfg, s, a))
  {
    match a {
      case Work(ok) => WorkKeepsWorkerOk(cfg, s, ok);
      case Crash(_) =>
      case _ =>
        StepGrows(cfg, s, a);
        ActionsByOthers(cfg, s, a);
        ActionLeavesWorker(cfg, s, a);
    }
  }

  lemma {:induction false} AlwaysWorkerOk(cfg: Config, run: seq<Action>)
    ensures InHand(Exec(cfg, START, run)) && WorkerOk(Exec(cfg, START, run))
  {
    if run != [] {
      var r := run[..|run| - 1];
      AlwaysWorkerOk(cfg, r);
      AlwaysWorking(cfg, r);
      StepKeepsWorkerOk(cfg, Exec(cfg, START, r), run[|run| - 1]);
    }
  }

  lemma NextKeepsOnlyWorker(agg: Aggregator, s: Store, step: StoreStep, id: Id)
    requires OnlyWorker(s, id) && (step.DoBegin? ==> step.who == WORKER || step.u.id != id)
    ensures OnlyWorker(Next(agg, s, step), id)
  {
  }

  lemma BeginsElsewhere(cfg: Config, s: State, a: Action, id: Id)
    requires a.HookRead? ==> a.u.id != id
    requires a.Hook? && a.who + 1 !in s.store.pending ==> a.u.id != id
    ensures |OnStore(cfg, s, a)| <= 2
    ensures forall k :: 0 <= k < |OnStore(cfg, s, a)| && OnStore(cfg, s, a)[k].DoBegin? ==>
              OnStore(cfg, s, a)[k].who == WORKER || OnStore(cfg, s, a)[k].u.id != id
  {
  }

  lemma StepKeepsOnlyWorker(cfg: Config, s: State, a: Action, id: Id)
    requires OnlyWorker(s.store, id)
    requires a.HookRead? ==> a.u.id != id
    requires a.Hook? && a.who + 1 !in s.store.pending ==> a.u.id != id
    ensures OnlyWorker(Step(cfg, s, a).store, id)
  {
    var steps := OnStore(cfg, s, a);
    StepRefines(cfg, s, a);
    BeginsElsewhere(cfg, s, a, id);
    if |steps| >= 1 {
      RunOne(cfg.agg, s.store, steps[0]);
      NextKeepsOnlyWorker(cfg.agg, s.store, steps[0], id);
      if |steps| == 2 {
        assert steps[..1] == [steps[0]];
        NextKeepsOnlyWorker(cfg.agg, Next(cfg.agg, s.store, steps[0]), steps[1], id);
      }
    }
  }

  // ---------------------------------------------------------------- the row is told by its updates

  /** What is really written: only what was really read. */
  function ReallyWritten(s: State, a: Action, id: Id): seq<Update>
    requires InHand(s)
  {
    if WORKER in s.store.pending then WrittenAbout(s, a, id) else []
  }

  lemma WorkAddsReally(cfg: Config, s: State, ok: bool, step: StoreStep, id: Id)
    requires InHand(s) && WorkerOk(s) && WorkOnStore(cfg, s) == [step]
    ensures AddedBy(s.store, step, id) == ReallyWritten(s, Work(ok), id)
  {
  }

  lemma NoWorkNoWrite(cfg: Config, s: State, ok: bool, id: Id)
    requires InHand(s) && WorkOnStore(cfg, s) == []
    ensures ReallyWritten(s, Work(ok), id) == []
  {
  }

  lemma WorkReallyAdds(cfg: Config, s: State, ok: bool, id: Id)
    requires InHand(s) && WorkerOk(s) && OnlyWorker(s.store, id)
    requires Consistent(cfg.agg, s.store) && RowTold(cfg.agg, s.store, id)
    ensures Adds(cfg.agg, s.store, Step(cfg, s, Work(ok)).store, id, ReallyWritten(s, Work(ok), id))
  {
    var steps := WorkOnStore(cfg, s);
    StepRefines(cfg, s, Work(ok));
    if steps == [] {
      NoWorkNoWrite(cfg, s, ok, id);
      NoStepAdds(cfg.agg, s.store, id);
    } else {
      WorkAddsReally(cfg, s, ok, steps[0], id);
      RunOne(cfg.agg, s.store, steps[0]);
      OneStepAdds(cfg.agg, s.store, steps[0], id);
    }
  }

  lemma StepReallyAdds(cfg: Config, s: State, a: Action, id: Id)
    requires InHand(s) && WorkerOk(s) && OnlyWorker(s.store, id)
    requires Consistent(cfg.agg, s.store) && RowTold(cfg.agg, s.store, id)
    requires a.HookRead? ==> a.u.id != id
    requires a.Hook? && a.who + 1 !in s.store.pending ==> a.u.id != id
    ensures Adds(cfg.agg, s.store, Step(cfg, s, a).store, id, ReallyWritten(s, a, id))
  {
    NothingWrittenBy(s, a, id);
    hide Adds, RowTold, Consistent, WrittenAbout, Step;
    match a {
      case Work(ok) => WorkReallyAdds(cfg, s, ok, id);
      case Hook(who, u) => HookAdds(cfg, s, who, u, id);
      case _ => OthersAdd(cfg, s, a, id);
    }
  }

  /** What is known of a row no webhook reported on, in every reachable state. */
  ghost predicate RowKnown(cfg: Config, s: State, id: Id) {
    && InHand(s) && WorkerOk(s) && OnlyWorker(s.store, id)
    && Consistent(cfg.agg, s.store) && RowTold(cfg.agg, s.store, id)
  }

  lemma {:induction false} AlwaysRowKnown(cfg: Config, run: seq<Action>, id: Id)
    requires Unhooked(Exec(cfg, START, run), id)
    ensures RowKnown(cfg, Exec(cfg, START, run), id)
  {
    SystemRefinesSplitUpdates(cfg, run);
    AlwaysWorkerOk(cfg, run);
    if run != [] {
      var r, a := run[..|run| - 1], run[|run| - 1];
      var s := Exec(cfg, START, r);
      HooksBefore(cfg, s, a, id);
      AlwaysRowKnown(cfg, r, id);
      StepKeepsOnlyWorker(cfg, s, a, id);
      StepReallyAdds(cfg, s, a, id);
    }
  }

  // ---------------------------------------------------------------- the delivery under way

  lemma EvidentIsTold(cfg: Config, off: nat, id: Id, req: Request, attempts: set<Attempt>, pos: Position, o: Oracle)
    requires (pos.Here? ==> pos.ci <= |req.channels|) && Evident(cfg, off, req, attempts, pos, o)
    ensures Told(cfg, off, id, req, Emitted(cfg.sup, id, req, o, pos), attempts, pos)
    ensures |Emitted(cfg.sup, id, req, o, pos)| == Length(req, pos)
  {
    assert Tells(cfg, off, id, req, Emitted(cfg.sup, id, req, o, pos), attempts, pos, [], o);
    UpdatesShape(cfg.sup, id, req, o, if pos.Here? then pos.ci else |req.channels|);
  }

  /** The updates the delivery would have written, whether or not there is a row. */
  lemma VirtualStep(cfg: Config, s: State, a: Action, off: nat, v: seq<Update>)
    requires off < |s.log| && s.log[off].Msg? && Working(cfg, s) && !a.Crash?
    requires Told(cfg, off, s.log[off].id, s.log[off].req, v, s.attempts, PositionOf(s, off))
    ensures var t := Step(cfg, s, a);
            Told(cfg, off, s.log[off].id, s.log[off].req, v + WrittenBy(s, a, off), t.attempts, PositionOf(t, off))
  {
    StepGrows(cfg, s, a);
    assert v + [] == v;
    if a.Work? && s.next == off {
      WorkTold(cfg, s, a.ok, off, v);
    } else {
      PositionStays(cfg, s, a, off);
      ToldGrows(cfg, off, s.log[off].id, s.log[off].req, v, s.attempts, Step(cfg, s, a).attempts, PositionOf(s, off));
    }
  }

  lemma LengthNext(cfg: Config, s: State, a: Action, off: nat)
    requires off < |s.log| && s.log[off].Msg? && Working(cfg, s) && !a.Crash?
    ensures var req, t := s.log[off].req, Step(cfg, s, a);
            Length(req, PositionOf(t, off)) == Length(req, PositionOf(s, off)) + |WrittenBy(s, a, off)|
  {
    if !(a.Work? && s.next == off) {
      PositionStays(cfg, s, a, off);
    }
  }

  /** The message is behind, or the delivery under way has its sends to show. */
  ghost predicate Underway(cfg: Config, s: State, off: nat)
    requires off < |s.log| && s.log[off].Msg?
  {
    var pos, req := PositionOf(s, off), s.log[off].req;
    && (pos.Here? ==> pos.ci <= |req.channels|)
    && (pos.Behind? || exists o: Oracle :: Evident(cfg, off, req, s.attempts, pos, o))
  }

  lemma AheadIsUnderway(cfg: Config, s: State, off: nat)
    requires off < |s.log| && s.log[off].Msg? && PositionOf(s, off).Ahead?
    ensures Underway(cfg, s, off)
  {
    var o: Oracle := (i: nat, j: nat) => true;
    assert Evident(cfg, off, s.log[off].req, s.attempts, PositionOf(s, off), o);
  }

  lemma StepUnderway(cfg: Config, s: State, a: Action, off: nat)
    requires off < |s.log| && s.log[off].Msg? && Working(cfg, s) && Underway(cfg, s, off)
    ensures var t := Step(cfg, s, a);
            off < |t.log| && t.log[off] == s.log[off] && Underway(cfg, t, off)
  {
    var t, id, req := Step(cfg, s, a), s.log[off].id, s.log[off].req;
    StepGrows(cfg, s, a);
    if a.Crash? {
      CrashUnderway(cfg, s, a.resume, off);
    } else if PositionOf(s, off).Behind? {
      PositionStays(cfg, s, a, off);
    } else {
      var o: Oracle :| Evident(cfg, off, req, s.attempts, PositionOf(s, off), o);
      EvidentIsTold(cfg, off, id, req, s.attempts, PositionOf(s, off), o);
      var v := Emitted(cfg.sup, id, req, o, PositionOf(s, off));
      VirtualStep(cfg, s, a, off, v);
      ToldIsEvident(cfg, off, id, req, v + WrittenBy(s, a, off), t.attempts, PositionOf(t, off));
    }
  }

  lemma ToldIsEvident(cfg: Config, off: nat, id: Id, req: Request, v: seq<Update>, attempts: set<Attempt>,
        pos: Position)
    requires Told(cfg, off, id, req, v, attempts, pos)
    ensures (pos.Here? ==> pos.ci <= |req.channels|) && exists o: Oracle :: Evident(cfg, off, req, attempts, pos, o)
  {
    var cuts: seq<Cut>, o: Oracle :| Tells(cfg, off, id, req, v, attempts, pos, cuts, o);
  }

  lemma CrashUnderway(cfg: Config, s: State, resume: nat, off: nat)
    requires off < |s.log| && s.log[off].Msg? && Underway(cfg, s, off)
    ensures Underway(cfg, Step(cfg, s, Crash(resume)), off)
  {
    var t := Step(cfg, s, Crash(resume));
    if t != s && resume <= off {
      AheadIsUnderway(cfg, t, off);
    }
  }

  lemma {:induction false} AlwaysUnderway(cfg: Config, run: seq<Action>, off: nat)
    requires off < |Exec(cfg, START, run).log| && Exec(cfg, START, run).log[off].Msg?
    ensures Underway(cfg, Exec(cfg, START, run), off)
  {
    if run != [] {
      var r, a := run[..|run| - 1], run[|run| - 1];
      var s, t := Exec(cfg, START, r), Exec(cfg, START, run);
      AlwaysWorking(cfg, r);
      StepGrows(cfg, s, a);
      if off < |s.log| {
        assert t.log[off] == s.log[off];
        AlwaysUnderway(cfg, r, off);
        StepUnderway(cfg, s, a, off);
      } else {
        OnlyAppends(cfg, s, a);
        AheadIsUnderway(cfg, t, off);
      }
    }
  }

  // ---------------------------------------------------------------- a row that came late

  /** How many updates of the delivery under way find no row: those already read by then. */
  function Missed(req: Request, pos: Position): nat {
    match pos
    case Ahead => 0
    case Behind => 2 * |req.channels|
    case Here(ci, phase) =>
      if ci >= |req.channels| then 2 * |req.channels|
      else 2 * ci + match phase
                    case StartRead => 0
                    case EndWrite(_) => 2
                    case _ => 1
  }

  function Drop(v: seq<Update>, m: nat): seq<Update> {
    if m <= |v| then v[m..] else []
  }

  predicate Writing(s: State, id: Id)
    requires InHand(s)
  {
    HasInHand(s, id) && InWrite(s)
  }

  /** The updates about the message are those of the delivery v but for the first m. */
  ghost predicate LateBy(cfg: Config, s: State, off: nat, m: nat, v: seq<Update>)
    requires InHand(s) && off < |s.log| && s.log[off].Msg?
  {
    var id, req := s.log[off].id, s.log[off].req;
    && Told(cfg, off, id, req, v, s.attempts, PositionOf(s, off))
    && |v| == Length(req, PositionOf(s, off))
    && About(s.store.journal, id) == Drop(v, m)
    && m <= |v| + (if Writing(s, id) then 1 else 0)
    && (Writing(s, id) ==> (WORKER in s.store.pending <==> m <= |v|))
  }

  ghost predicate Late(cfg: Config, s: State, off: nat, m: nat)
    requires InHand(s) && off < |s.log| && s.log[off].Msg?
  {
    || (PositionOf(s, off).Behind? && m == 2 * |s.log[off].req.channels| && About(s.store.journal, s.log[off].id) == [])
    || exists v :: LateBy(cfg, s, off, m, v)
  }

  /** When the row is created nothing was written about it, and the reads made so far are lost. */
  lemma LateStarts(cfg: Config, s: State, t: State, off: nat)
    requires InHand(s) && WorkerOk(s) && PendingOk(s.store) && off < |s.log| && s.log[off].Msg? && Underway(cfg, s, off)
    requires LogOk(cfg, s) && Working(cfg, s)
    requires s.log[off].id !in s.store.rows && Consistent(cfg.agg, s.store)
    requires t == s.(store := t.store, calls := t.calls, created := t.created)
    requires t.store == Create(s.store, s.log[off].id, ChannelSet(s.log[off].req.channels))
    ensures InHand(t) && Late(cfg, t, off, Missed(s.log[off].req, PositionOf(s, off)))
  {
    hide Told, Consistent, Evident, Working;
    var id, req, pos := s.log[off].id, s.log[off].req, PositionOf(s, off);
    NothingAboutRowless(cfg.agg, s.store, id);
    assert PositionOf(t, off) == pos && t.store.journal == s.store.journal;
    if !pos.Behind? {
      var o: Oracle :| Evident(cfg, off, req, s.attempts, pos, o);
      EvidentIsTold(cfg, off, id, req, s.attempts, pos, o);
      var v := Emitted(cfg.sup, id, req, o, pos);
      NotWrittenYet(s, off);
      assert LateBy(cfg, t, off, Missed(req, pos), v);
    }
  }

  lemma NotWrittenYet(s: State, off: nat)
    requires InHand(s) && WorkerOk(s) && PendingOk(s.store)
    requires off < |s.log| && s.log[off].Msg? && s.log[off].id !in s.store.rows
    ensures HasInHand(s, s.log[off].id) ==> WORKER !in s.store.pending
  {
  }

  lemma WrittenAtOff(cfg: Config, s: State, a: Action, off: nat)
    requires LogOk(cfg, s) && InHand(s) && off < |s.log| && s.log[off].Msg?
    ensures WrittenAbout(s, a, s.log[off].id) == WrittenBy(s, a, off)
  {
  }

  lemma WorkOnWriting(cfg: Config, s: State, ok: bool, off: nat)
    requires LogOk(cfg, s) && Working(cfg, s) && WorkerOk(s)
    requires off < |s.log| && s.log[off].Msg? && s.log[off].id in s.store.rows
    ensures var t, id := Consume(cfg, s, ok), s.log[off].id;
            && InHand(t)
            && (Writing(s, id) ==> !Writing(t, id) && |WrittenBy(s, Work(ok), off)| == 1)
            && (!Writing(s, id) ==> WrittenBy(s, Work(ok), off) == [])
            && (Writing(t, id) ==> WORKER in t.store.pending)
  {
  }

  /** How a step changes whether the worker stands before a write on this message. */
  lemma WritingNext(cfg: Config, s: State, a: Action, off: nat)
    requires LogOk(cfg, s) && Working(cfg, s) && WorkerOk(s) && !a.Crash?
    requires off < |s.log| && s.log[off].Msg? && s.log[off].id in s.store.rows
    ensures var t, id := Step(cfg, s, a), s.log[off].id;
            && InHand(t)
            && (a.Work? && Writing(s, id) ==> !Writing(t, id) && |WrittenBy(s, a, off)| == 1)
            && (!(a.Work? && Writing(s, id)) ==> WrittenBy(s, a, off) == [])
            && (a.Work? && Writing(t, id) ==> WORKER in t.store.pending)
            && (!a.Work? ==> Writing(t, id) == Writing(s, id) && SameWorker(s.store, t.store))
  {
    if a.Work? {
      WorkOnWriting(cfg, s, a.ok, off);
    } else {
      StepKeepsWorkerOk(cfg, s, a);
      StepGrows(cfg, s, a);
      ActionsByOthers(cfg, s, a);
      ActionLeavesWorker(cfg, s, a);
    }
  }

  lemma DropNext(v: seq<Update>, w: seq<Update>, m: nat, really: bool)
    requires |w| == 1 ==> m <= |v| + 1 && (really <==> m <= |v|)
    requires |w| <= 1
    ensures Drop(v, m) + (if really then w else []) == Drop(v + w, m)
  {
    if w == [] {
      assert v + w == v;
    }
  }

  lemma LateByStep(cfg: Config, s: State, a: Action, off: nat, m: nat, v: seq<Update>)
    requires off < |s.log| && s.log[off].Msg? && s.log[off].id in s.store.rows
    requires LogOk(cfg, s) && Working(cfg, s) && WorkerOk(s) && LateBy(cfg, s, off, m, v) && !a.Crash?
    requires var t, id := Step(cfg, s, a), s.log[off].id;
             && off < |t.log| && t.log[off] == s.log[off]
             && About(t.store.journal, id) == About(s.store.journal, id) + ReallyWritten(s, a, id)
    ensures var t := Step(cfg, s, a);
            InHand(t) && LateBy(cfg, t, off, m, v + WrittenBy(s, a, off))
  {
    WrittenAtOff(cfg, s, a, off);
    WritingNext(cfg, s, a, off);
    VirtualStep(cfg, s, a, off, v);
    LengthNext(cfg, s, a, off);
    DropNext(v, WrittenBy(s, a, off), m, WORKER in s.store.pending);
    hide Step, Told, About, WrittenBy, WrittenAbout, Drop, Length, PositionOf, LogOk, Working, WorkerOk;
  }

  lemma LateStep(cfg: Config, s: State, a: Action, off: nat, m: nat)
    requires off < |s.log| && s.log[off].Msg? && s.log[off].id in s.store.rows
    requires LogOk(cfg, s) && Working(cfg, s) && RowKnown(cfg, s, s.log[off].id) && Late(cfg, s, off, m) && !a.Crash?
    requires a.HookRead? ==> a.u.id != s.log[off].id
    requires a.Hook? && a.who + 1 !in s.store.pending ==> a.u.id != s.log[off].id
    ensures var t := Step(cfg, s, a);
            off < |t.log| && t.log[off] == s.log[off] && InHand(t) && Late(cfg, t, off, m)
  {
    hide Step, Told, RowTold, WrittenBy, WrittenAbout, Drop, Working;
    var t, id := Step(cfg, s, a), s.log[off].id;
    StepGrows(cfg, s, a);
    StepReallyAdds(cfg, s, a, id);
    WrittenAtOff(cfg, s, a, off);
    WritingNext(cfg, s, a, off);
    if v :| LateBy(cfg, s, off, m, v) {
      LateByStep(cfg, s, a, off, m, v);
    } else {
      PositionStays(cfg, s, a, off);
    }
  }

  lemma NotWritingBehind(cfg: Config, s: State, off: nat)
    requires LogOk(cfg, s) && InHand(s) && off < |s.log| && s.log[off].Msg? && PositionOf(s, off).Behind?
    ensures !Writing(s, s.log[off].id)
  {
  }

  /** The consumer goes back to the message, or to before it. */
  predicate GoesBack(cfg: Config, s: State, a: Action, off: nat) {
    a.Crash? && a.resume <= off && a.resume <= Marked(cfg, s)
  }

  /** A crash that does not. */
  lemma LateCrash(cfg: Config, s: State, resume: nat, off: nat, m: nat)
    requires off < |s.log| && s.log[off].Msg? && LogOk(cfg, s) && Working(cfg, s)
    requires RowKnown(cfg, s, s.log[off].id) && Late(cfg, s, off, m)
    requires CalmStep(cfg, s, Crash(resume), s.log[off].id) && !GoesBack(cfg, s, Crash(resume), off)
    ensures var t := Step(cfg, s, Crash(resume));
            t.log == s.log && InHand(t) && Late(cfg, t, off, m)
  {
    var t := Step(cfg, s, Crash(resume));
    if t != s {
      StillBehind(cfg, s, resume, off);
      NotWritingBehind(cfg, s, off);
      OthersAdd(cfg, s, Crash(resume), s.log[off].id);
      if v :| LateBy(cfg, s, off, m, v) {
        assert LateBy(cfg, t, off, m, v);
      }
    }
  }

  lemma StillBehind(cfg: Config, s: State, resume: nat, off: nat)
    requires off < |s.log| && s.log[off].Msg? && resume <= Marked(cfg, s) && resume > off && InHand(s)
    requires CalmStep(cfg, s, Crash(resume), s.log[off].id)
    ensures PositionOf(s, off) == Behind && PositionOf(Step(cfg, s, Crash(resume)), off) == Behind
  {
  }

  /** Going back, the row counts as created before its message was taken up. */
  lemma BackInTime(cfg: Config, s: State, a: Action, off: nat)
    requires off < |s.log| && s.log[off].Msg? && s.log[off].id in s.store.rows
    requires LogOk(cfg, s) && RowKnown(cfg, s, s.log[off].id) && AllHonest(cfg, s) && Unhooked(s, s.log[off].id)
    requires GoesBack(cfg, s, a, off)
    ensures Settling(Step(cfg, s, a), s.log[off].id)
  {
    OnlyRequested(cfg, s, off);
  }

  /** Without webhooks a row has no channels but the requested ones. */
  lemma OnlyRequested(cfg: Config, s: State, off: nat)
    requires off < |s.log| && s.log[off].Msg? && s.log[off].id in s.store.rows
    requires LogOk(cfg, s) && Consistent(cfg.agg, s.store) && AllHonest(cfg, s) && Unhooked(s, s.log[off].id)
    ensures var id := s.log[off].id;
            id in s.store.births && s.store.rows[id].channels.Keys == s.store.births[id]
  {
    var id := s.log[off].id;
    assert MessageOk(cfg, s, id, s.log[off].req);
    assert Fits(cfg.agg, s.store, id, s.store.rows[id]);
    forall c | c in s.store.rows[id].channels ensures c in s.store.births[id] {
      var u := Update(id, c, s.store.rows[id].channels[c]);
      if u in s.store.journal {
        assert Honest(cfg, s, u);
        var k: nat, ci: nat :| Backed(cfg, s, u, k, ci);
        assert k == off;
      }
    }
  }

  lemma RowsStay(cfg: Config, s: State, a: Action)
    requires Consistent(cfg.agg, s.store)
    ensures s.store.rows.Keys <= Step(cfg, s, a).store.rows.Keys
  {
    if !FromApi(a) {
      UpdatersHaveRows(cfg.agg, s.store);
      OthersKeepRows(cfg, s, a);
    }
  }

  /** No crash skips the message while it is in hand. */
  ghost predicate SkipsNothing(cfg: Config, before: seq<Action>, after: seq<Action>, id: Id) {
    after == [] ||
    (SkipsNothing(cfg, before, after[..|after| - 1], id) &&
     (after[|after| - 1].Crash? ==>
        CalmStep(cfg, Exec(cfg, START, before + after[..|after| - 1]), after[|after| - 1], id)))
  }

  ghost predicate WentBack(cfg: Config, before: seq<Action>, after: seq<Action>, off: nat) {
    after != [] &&
    (WentBack(cfg, before, after[..|after| - 1], off) ||
     GoesBack(cfg, Exec(cfg, START, before + after[..|after| - 1]), after[|after| - 1], off))
  }

  /** Either the consumer went back since, and the row settles, or the delivery is still a late one. */
  ghost predicate LateOrSettling(cfg: Config, s: State, off: nat, m: nat, back: bool) {
    && InHand(s) && off < |s.log| && s.log[off].Msg? && s.log[off].id in s.store.rows
    && if back then Settling(s, s.log[off].id) else Late(cfg, s, off, m)
  }

  lemma LateOrSettlingStep(cfg: Config, s: State, a: Action, off: nat, m: nat, back: bool)
    requires LateOrSettling(cfg, s, off, m, back)
    requires LogOk(cfg, s) && Working(cfg, s) && AllHonest(cfg, s) && RowKnown(cfg, s, s.log[off].id)
    requires Unhooked(Step(cfg, s, a), s.log[off].id)
    requires a.Crash? ==> CalmStep(cfg, s, a, s.log[off].id)
    ensures Step(cfg, s, a).log != [] && off < |Step(cfg, s, a).log| && Step(cfg, s, a).log[off] == s.log[off]
    ensures LateOrSettling(cfg, Step(cfg, s, a), off, m, back || GoesBack(cfg, s, a, off))
  {
    var id := s.log[off].id;
    HooksBefore(cfg, s, a, id);
    StepGrows(cfg, s, a);
    RowsStay(cfg, s, a);
    if back {
      UpdatersHaveRows(cfg.agg, s.store);
      CreatedOnce(cfg, s, a, id);
      StepKeepsSettling(cfg, s, a, id);
    } else if GoesBack(cfg, s, a, off) {
      BackInTime(cfg, s, a, off);
    } else if a.Crash? {
      LateCrash(cfg, s, a.resume, off, m);
    } else {
      LateStep(cfg, s, a, off, m);
    }
  }

  lemma CreatedOnce(cfg: Config, s: State, a: Action, id: Id)
    requires LogOk(cfg, s) && id in s.store.rows && (a.Crash? ==> CalmStep(cfg, s, a, id))
    requires a.HookRead? ==> a.u.id != id
    requires a.Hook? && a.who + 1 !in s.store.pending ==> a.u.id != id
    ensures CalmStep(cfg, s, a, id)
  {
    if a.ApiCreate? && a.id == id && id in s.calls {
      assert CallOk(cfg, s, id, s.calls[id]);
    }
  }

  lemma {:induction false} LateUntilTheEnd(cfg: Config, before: seq<Action>, after: seq<Action>, off: nat, m: nat)
    requires LateOrSettling(cfg, Exec(cfg, START, before), off, m, false)
    requires var id := Exec(cfg, START, before).log[off].id;
             SkipsNothing(cfg, before, after, id) && Unhooked(Exec(cfg, START, before + after), id)
    ensures var s, t := Exec(cfg, START, before), Exec(cfg, START, before + after);
            && off < |t.log| && t.log[off] == s.log[off]
            && LateOrSettling(cfg, t, off, m, WentBack(cfg, before, after, off))
  {
    hide Step, LogOk, Working, AllHonest, RowKnown, Late, Settling;
    if after == [] {
      assert before + after == before;
    } else {
      var rest, a := after[..|after| - 1], after[|after| - 1];
      var r := before + rest;
      var s, id := Exec(cfg, START, r), Exec(cfg, START, before).log[off].id;
      assert before + after == r + [a];
      ExecSnoc(cfg, START, r, a);
      HooksBefore(cfg, s, a, id);
      LateUntilTheEnd(cfg, before, rest, off, m);
      AlwaysLogOk(cfg, r);
      AlwaysWorking(cfg, r);
      AlwaysHonest(cfg, r);
      AlwaysRowKnown(cfg, r, id);
      LateOrSettlingStep(cfg, s, a, off, m, WentBack(cfg, before, rest, off));
    }
  }

  lemma WholeDelivery(cfg: Config, off: nat, id: Id, req: Request, v: seq<Update>, attempts: set<Attempt>)
    requires Told(cfg, off, id, req, v, attempts, Behind) && |v| == 2 * |req.channels|
    ensures exists o: Oracle :: v == AllUpdates(cfg.sup, id, req, o)
  {
    var cuts: seq<Cut>, o: Oracle :| Tells(cfg, off, id, req, v, attempts, Behind, cuts, o);
    UpdatesShape(cfg.sup, id, req, o, |req.channels|);
    assert v == AllUpdates(cfg.sup, id, req, o);
  }

  /** A delivery seen to its end, but for the first m updates. */
  lemma LateEnds(cfg: Config, s: State, off: nat, m: nat)
    requires LogOk(cfg, s) && InHand(s) && off < |s.log| && s.log[off].Msg? && Late(cfg, s, off, m) && PositionOf(s, off).Behind?
    ensures var id, req := s.log[off].id, s.log[off].req;
            && m <= 2 * |req.channels|
            && exists o: Oracle :: |AllUpdates(cfg.sup, id, req, o)| == 2 * |req.channels| &&
                                   About(s.store.journal, id) == AllUpdates(cfg.sup, id, req, o)[m..]
  {
    hide LogOk, Told;
    var id, req := s.log[off].id, s.log[off].req;
    if v :| LateBy(cfg, s, off, m, v) {
      NotWritingBehind(cfg, s, off);
      WholeDelivery(cfg, off, id, req, v, s.attempts);
    } else {
      var o: Oracle := (i: nat, j: nat) => true;
      UpdatesShape(cfg.sup, id, req, o, |req.channels|);
      assert AllUpdates(cfg.sup, id, req, o)[m..] == [];
    }
  }

  /** A late row, exactly: a row is created when its message is already in the log, wherever the
      consumer then stands; afterwards no webhook reports on it and no crash skips it. Once the log is
      drained it is finished if and only if the consumer went back to the message since, or when the
      row was created the read for the last update of no channel had been made. */
  lemma LateRowFinishedIff(d: Dialect, cfg: Config, before: seq<Action>, id: Id, after: seq<Action>, off: nat)
    requires cfg.agg == AggBy(d) && SkipsNothing(cfg, before + [ApiCreate(id, true)], after, id)
    requires var s := Exec(cfg, START, before);
             && off < |s.log| && s.log[off].Msg? && s.log[off].id == id && s.log[off].req.channels != []
             && id in s.calls && s.calls[id].stage.ToCreate? && id !in s.store.rows
    requires var t := Exec(cfg, START, before + [ApiCreate(id, true)] + after);
             Drained(t) && Unhooked(t, id)
    ensures var s, t := Exec(cfg, START, before), Exec(cfg, START, before + [ApiCreate(id, true)] + after);
            var req := s.log[off].req;
            Finished(t, id, req) <==>
            || WentBack(cfg, before + [ApiCreate(id, true)], after, off)
            || forall c :: c in req.channels ==> Missed(req, PositionOf(s, off)) <= 2 * LastIndex(req.channels, c) + 1
  {
    var s := Exec(cfg, START, before);
    var m := Missed(s.log[off].req, PositionOf(s, off));
    var created := before + [ApiCreate(id, true)];
    var t := Exec(cfg, START, created + after);
    CreatedLate(cfg, before, id, off);
    LateUntilTheEnd(cfg, created, after, off, m);
    AlwaysLogOk(cfg, created + after);
    AlwaysRowKnown(cfg, created + after, id);
    if WentBack(cfg, created, after, off) {
      DrainedMessageIsFinished(d, cfg, t, off);
    } else {
      StillLateFinishedIff(d, cfg, t, off, m);
    }
  }

  lemma StillLateFinishedIff(d: Dialect, cfg: Config, s: State, off: nat, m: nat)
    requires cfg.agg == AggBy(d) && LateOrSettling(cfg, s, off, m, false) && LogOk(cfg, s) && Drained(s)
    requires RowKnown(cfg, s, s.log[off].id) && s.log[off].req.channels != []
    ensures var req := s.log[off].req;
            Finished(s, s.log[off].id, req) <==>
            forall c :: c in req.channels ==> m <= 2 * LastIndex(req.channels, c) + 1
  {
    var id, req := s.log[off].id, s.log[off].req;
    LateEnds(cfg, s, off, m);
    var o: Oracle :| |AllUpdates(cfg.sup, id, req, o)| == 2 * |req.channels| &&
                     About(s.store.journal, id) == AllUpdates(cfg.sup, id, req, o)[m..];
    assert MessageOk(cfg, s, id, req);
    LateCreationIff(cfg.agg, cfg.sup, id, req, o, m);
    LateFinished(d, cfg, s, id, req, o, m);
  }

  lemma CreatedLate(cfg: Config, before: seq<Action>, id: Id, off: nat)
    requires var s := Exec(cfg, START, before);
             && off < |s.log| && s.log[off].Msg? && s.log[off].id == id
             && id in s.calls && s.calls[id].stage.ToCreate? && id !in s.store.rows
    ensures var s, t := Exec(cfg, START, before), Exec(cfg, START, before + [ApiCreate(id, true)]);
            && t.log == s.log && id in t.store.rows
            && InHand(t) && Late(cfg, t, off, Missed(s.log[off].req, PositionOf(s, off)))
  {
    var s := Exec(cfg, START, before);
    AlwaysLogOk(cfg, before);
    AlwaysWorking(cfg, before);
    AlwaysWorkerOk(cfg, before);
    AlwaysUnderway(cfg, before, off);
    PendingHaveRows(cfg, before);
    SystemRefinesSplitUpdates(cfg, before);
    ExecSnoc(cfg, START, before, ApiCreate(id, true));
    assert CallOk(cfg, s, id, s.calls[id]);
    LateStarts(cfg, s, Step(cfg, s, ApiCreate(id, true)), off);
  }

  lemma LateFinished(d: Dialect, cfg: Config, s: State, id: Id, req: Request, o: Oracle, m: nat)
    requires cfg.agg == AggBy(d) && Consistent(cfg.agg, s.store) && RowTold(cfg.agg, s.store, id)
    requires id in s.store.rows && id in s.store.births && s.store.births[id] == ChannelSet(req.channels) && req.channels != []
    requires m <= |AllUpdates(cfg.sup, id, req, o)| && About(s.store.journal, id) == AllUpdates(cfg.sup, id, req, o)[m..]
    ensures var r := ApplyAll(cfg.agg, map[id := Initial(ChannelSet(req.channels))], AllUpdates(cfg.sup, id, req, o)[m..]);
            && id in r
            && (r[id].channels.Keys == ChannelSet(req.channels) ==>
                  (Finished(s, id, req) <==> forall c :: c in req.channels ==> Terminal(r[id].channels[c])))
  {
    var r := ApplyAll(cfg.agg, map[id := Initial(ChannelSet(req.channels))], AllUpdates(cfg.sup, id, req, o)[m..]);
    assert r == map[id := s.store.rows[id]];
    assert req.channels[0] in ChannelSet(req.channels);
    if r[id].channels.Keys == ChannelSet(req.channels) && forall c :: c in req.channels ==> Terminal(r[id].channels[c]) {
      forall c | c in r[id].channels ensures Terminal(r[id].channels[c]) {
        assert c in ChannelSet(req.channels);
      }
      SettledRowsAreFinished(d, cfg.agg, s.store, id);
    }
  }
}
