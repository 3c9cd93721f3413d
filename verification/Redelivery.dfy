/** What the rows tell about the sends: without webhooks on it, a drained notification was told by
    some deliveries cut short and one complete one, whose sends were all made, and its row is what
    the complete delivery alone leaves. */
module Redelivery {
  import opened Statuses
  import opened Traces
  import opened Deliveries
  import opened SplitUpdates
  import opened Protocol
  import opened DeliveryGuarantees
  import opened Intake
  import opened Quiescence

  // ---------------------------------------------------------------- oracles that agree

  /** The same outcomes on the first n recipients of channel position i. */
  ghost predicate AgreeTo(o: Oracle, p: Oracle, i: nat, n: nat) {
    forall j: nat :: j < n ==> o(i, j) == p(i, j)
  }

  /** The same outcomes on the first n channel positions. */
  ghost predicate AgreeOn(o: Oracle, p: Oracle, n: nat) {
    forall i: nat, j: nat :: i < n ==> o(i, j) == p(i, j)
  }

  lemma {:induction false} AttemptedAgrees(shape: Shape, o: Oracle, p: Oracle, i: nat, n: nat)
    requires AgreeTo(o, p, i, n)
    ensures Attempted(shape, o, i, n) == Attempted(shape, p, i, n)
  {
    if n > 0 {
      AttemptedAgrees(shape, o, p, i, n - 1);
    }
  }

  lemma {:induction false} UpdatesAgree(sup: Table, id: Id, req: Request, o: Oracle, p: Oracle, n: nat)
    requires n <= |req.channels| && AgreeOn(o, p, n)
    ensures Updates(sup, id, req, o, n) == Updates(sup, id, req, p, n)
  {
    if n > 0 {
      UpdatesAgree(sup, id, req, o, p, n - 1);
      assert AllSent(o, n - 1, |req.recipients|) == AllSent(p, n - 1, |req.recipients|);
    }
  }

  lemma AttemptsToAgree(off: nat, ci: nat, o: Oracle, p: Oracle, n: nat)
    requires AgreeTo(o, p, ci, n)
    ensures AttemptsTo(off, ci, o, n) == AttemptsTo(off, ci, p, n)
  {
  }

  lemma {:induction false} AttemptsAgree(cfg: Config, off: nat, req: Request, o: Oracle, p: Oracle, n: nat)
    requires n <= |req.channels| && AgreeOn(o, p, n)
    ensures AttemptsOf(cfg, off, req, o, n) == AttemptsOf(cfg, off, req, p, n)
  {
    if n > 0 {
      AttemptsAgree(cfg, off, req, o, p, n - 1);
      AttemptedAgrees(cfg.shape, o, p, n - 1, |req.recipients|);
      AttemptsToAgree(off, n - 1, o, p, Attempted(cfg.shape, o, n - 1, |req.recipients|));
    }
  }

  // ---------------------------------------------------------------- what has been told so far

  /** Where the consumer stands with one message. */
  datatype Position = Ahead | Here(ci: nat, phase: Phase) | Behind

  function PositionOf(s: State, off: nat): Position {
    if s.next > off then Behind
    else if s.next < off || s.consumer.Idle? then Ahead
    else Here(s.consumer.ci, s.consumer.phase)
  }

  /** The updates the delivery under way has written. */
  function Emitted(sup: Table, id: Id, req: Request, o: Oracle, pos: Position): seq<Update>
    requires pos.Here? ==> pos.ci <= |req.channels|
  {
    match pos
    case Ahead => []
    case Behind => AllUpdates(sup, id, req, o)
    case Here(ci, phase) => Updates(sup, id, req, o, ci) + Opened(id, req, ci, phase)
  }

  /** PROCESSING, once written for the channel at hand. */
  function Opened(id: Id, req: Request, ci: nat, phase: Phase): seq<Update> {
    if ci < |req.channels| && !phase.StartRead? && !phase.StartWrite?
    then [Update(id, req.channels[ci], PROCESSING)] else []
  }

  /** The sends behind those updates were made, with the outcomes of o. */
  predicate Evident(cfg: Config, off: nat, req: Request, attempts: set<Attempt>, pos: Position, o: Oracle)
    requires pos.Here? ==> pos.ci <= |req.channels|
  {
    match pos
    case Ahead => true
    case Behind => AttemptsOf(cfg, off, req, o, |req.channels|) <= attempts
    case Here(ci, phase) =>
      && AttemptsOf(cfg, off, req, o, ci) <= attempts
      && (ci < |req.channels| ==> PhaseEvident(cfg, off, req, attempts, ci, phase, o))
  }

  predicate PhaseEvident(cfg: Config, off: nat, req: Request, attempts: set<Attempt>, ci: nat, phase: Phase, o: Oracle)
    requires ci < |req.channels|
  {
    match phase
    case Sending(ri, allOk) =>
      && cfg.sup(req.channels[ci])
      && ri <= |req.recipients|
      && AttemptsTo(off, ci, o, ri) <= attempts
      && allOk == AllSent(o, ci, ri)
      && (cfg.shape.FailFast? && ri > 0 ==> AllSent(o, ci, ri - 1))
    case EndRead(st) => OutcomeEvident(cfg, off, req, attempts, ci, st, o)
    case EndWrite(st) => OutcomeEvident(cfg, off, req, attempts, ci, st, o)
    case _ => true
  }

  predicate OutcomeEvident(cfg: Config, off: nat, req: Request, attempts: set<Attempt>, ci: nat, st: string, o: Oracle)
    requires ci < |req.channels|
  {
    st == Outcome(cfg.sup, req, o, ci) && ChannelAttempts(cfg, off, req, o, ci) <= attempts
  }

  /** A delivery cut short whose finished channels all have their sends to show. */
  ghost predicate Genuine(cfg: Config, off: nat, req: Request, attempts: set<Attempt>, cut: Cut) {
    forall n: nat :: n <= |req.channels| && 2 * n <= cut.length ==> AttemptsOf(cfg, off, req, cut.o, n) <= attempts
  }

  /** The updates about a message so far: deliveries cut short, then the one under way with the
      outcomes of o. */
  ghost predicate Tells(cfg: Config, off: nat, id: Id, req: Request, about: seq<Update>, attempts: set<Attempt>,
                        pos: Position, cuts: seq<Cut>, o: Oracle) {
    && (pos.Here? ==> pos.ci <= |req.channels|)
    && about == CutRuns(cfg.sup, id, req, cuts) + Emitted(cfg.sup, id, req, o, pos)
    && Evident(cfg, off, req, attempts, pos, o)
    && forall k :: 0 <= k < |cuts| ==> Genuine(cfg, off, req, attempts, cuts[k])
  }

  ghost predicate Told(cfg: Config, off: nat, id: Id, req: Request, about: seq<Update>, attempts: set<Attempt>,
        pos: Position) {
    exists cuts: seq<Cut>, o: Oracle :: Tells(cfg, off, id, req, about, attempts, pos, cuts, o)
  }

  /** More sends change nothing. */
  lemma EvidentGrows(cfg: Config, off: nat, req: Request, attempts: set<Attempt>, more: set<Attempt>,
        pos: Position, o: Oracle)
    requires pos.Here? ==> pos.ci <= |req.channels|
    requires attempts <= more && Evident(cfg, off, req, attempts, pos, o)
    ensures Evident(cfg, off, req, more, pos, o)
  {
  }

  lemma GenuineGrows(cfg: Config, off: nat, req: Request, attempts: set<Attempt>, more: set<Attempt>, cut: Cut)
    requires attempts <= more && Genuine(cfg, off, req, attempts, cut)
    ensures Genuine(cfg, off, req, more, cut)
  {
  }

  lemma ToldGrows(cfg: Config, off: nat, id: Id, req: Request, about: seq<Update>, attempts: set<Attempt>,
        more: set<Attempt>, pos: Position)
    requires attempts <= more && Told(cfg, off, id, req, about, attempts, pos)
    ensures Told(cfg, off, id, req, about, more, pos)
  {
    var cuts: seq<Cut>, o: Oracle :| Tells(cfg, off, id, req, about, attempts, pos, cuts, o);
    EvidentGrows(cfg, off, req, attempts, more, pos, o);
    forall k | 0 <= k < |cuts| ensures Genuine(cfg, off, req, more, cuts[k]) {
      GenuineGrows(cfg, off, req, attempts, more, cuts[k]);
    }
    assert Tells(cfg, off, id, req, about, more, pos, cuts, o);
  }

  // ---------------------------------------------------------------- one step of the delivery

  lemma NothingTold(cfg: Config, off: nat, id: Id, req: Request, attempts: set<Attempt>)
    ensures Told(cfg, off, id, req, [], attempts, Ahead)
  {
    assert Tells(cfg, off, id, req, [], attempts, Ahead, [], (i, j) => true);
  }

  /** Steps that write no update and try no send. */
  lemma QuietlyTold(cfg: Config, off: nat, id: Id, req: Request, about: seq<Update>, attempts: set<Attempt>,
        pos: Position, pos': Position)
    requires Told(cfg, off, id, req, about, attempts, pos)
    requires pos.Here? ==> pos.ci <= |req.channels|
    requires
      || (pos.Ahead? && pos' == Here(0, StartRead))
      || (pos.Here? && pos.phase.StartRead? && pos' == Here(pos.ci, StartWrite))
      || (pos.Here? && pos.ci < |req.channels| && pos.phase.EndRead? && pos' == Here(pos.ci, EndWrite(pos.phase.st)))
      || (pos.Here? && pos.ci < |req.channels| && pos.phase.Lookup? &&
          pos' == Here(pos.ci, if cfg.sup(req.channels[pos.ci]) then Sending(0, true) else EndRead(FAILED)))
      || (pos == Here(|req.channels|, StartRead) && pos' == Behind)
    ensures Told(cfg, off, id, req, about, attempts, pos')
  {
    var cuts: seq<Cut>, o: Oracle :| Tells(cfg, off, id, req, about, attempts, pos, cuts, o);
    assert Emitted(cfg.sup, id, req, o, pos') == Emitted(cfg.sup, id, req, o, pos);
    assert Tells(cfg, off, id, req, about, attempts, pos', cuts, o);
  }

  /** PROCESSING is written. */
  lemma OpeningTold(cfg: Config, off: nat, id: Id, req: Request, about: seq<Update>, attempts: set<Attempt>, ci: nat)
    requires ci < |req.channels| && Told(cfg, off, id, req, about, attempts, Here(ci, StartWrite))
    ensures Told(cfg, off, id, req, about + [Update(id, req.channels[ci], PROCESSING)], attempts, Here(ci, Lookup))
  {
    var cuts: seq<Cut>, o: Oracle :| Tells(cfg, off, id, req, about, attempts, Here(ci, StartWrite), cuts, o);
    var u := Update(id, req.channels[ci], PROCESSING);
    var before, now := CutRuns(cfg.sup, id, req, cuts), Updates(cfg.sup, id, req, o, ci);
    assert before + (now + []) + [u] == before + (now + [u]);
    assert Tells(cfg, off, id, req, about + [u], attempts, Here(ci, Lookup), cuts, o);
  }

  lemma EmittedNext(sup: Table, id: Id, req: Request, o: Oracle, ci: nat)
    requires ci < |req.channels|
    ensures var st := Outcome(sup, req, o, ci);
            Emitted(sup, id, req, o, Here(ci, EndWrite(st))) + [Update(id, req.channels[ci], st)] ==
            Emitted(sup, id, req, o, Here(ci + 1, StartRead))
  {
    var now := Updates(sup, id, req, o, ci);
    var u, v := Update(id, req.channels[ci], PROCESSING), Update(id, req.channels[ci], Outcome(sup, req, o, ci));
    assert now + [u] + [v] == now + [u, v] + [];
  }

  /** The outcome is written. */
  lemma ClosingTold(cfg: Config, off: nat, id: Id, req: Request, about: seq<Update>, attempts: set<Attempt>,
        ci: nat, st: string)
    requires ci < |req.channels| && Told(cfg, off, id, req, about, attempts, Here(ci, EndWrite(st)))
    ensures Told(cfg, off, id, req, about + [Update(id, req.channels[ci], st)], attempts, Here(ci + 1, StartRead))
  {
    var cuts: seq<Cut>, o: Oracle :| Tells(cfg, off, id, req, about, attempts, Here(ci, EndWrite(st)), cuts, o);
    var v := Update(id, req.channels[ci], st);
    var before, now := CutRuns(cfg.sup, id, req, cuts), Emitted(cfg.sup, id, req, o, Here(ci, EndWrite(st)));
    EmittedNext(cfg.sup, id, req, o, ci);
    assert before + now + [v] == before + (now + [v]);
    assert AttemptsOf(cfg, off, req, o, ci + 1) == AttemptsOf(cfg, off, req, o, ci) + ChannelAttempts(cfg, off, req, o, ci);
    assert Tells(cfg, off, id, req, about + [v], attempts, Here(ci + 1, StartRead), cuts, o);
  }

  /** The oracle with one outcome set. */
  function With(o: Oracle, ci: nat, ri: nat, ok: bool): Oracle {
    (i: nat, j: nat) => if i == ci && j == ri then ok else o(i, j)
  }

  lemma WithEvident(cfg: Config, off: nat, req: Request, attempts: set<Attempt>, ci: nat, ri: nat, allOk: bool,
        o: Oracle, ok: bool)
    requires ci < |req.channels| && ri < |req.recipients| && (cfg.shape.FailFast? ==> allOk)
    requires PhaseEvident(cfg, off, req, attempts, ci, Sending(ri, allOk), o)
    ensures PhaseEvident(cfg, off, req, attempts + {Attempt(off, ci, ri, ok)}, ci, Sending(ri + 1, allOk && ok), With(o, ci, ri, ok))
  {
    var p := With(o, ci, ri, ok);
    AttemptsToAgree(off, ci, o, p, ri);
    assert AttemptsTo(off, ci, p, ri + 1) <= AttemptsTo(off, ci, p, ri) + {Attempt(off, ci, ri, ok)};
    assert AllSent(p, ci, ri) == AllSent(o, ci, ri);
    assert AllSent(p, ci, ri + 1) == (AllSent(p, ci, ri) && p(ci, ri));
  }

  /** A send, with the outcome it had. */
  lemma SendTold(cfg: Config, off: nat, id: Id, req: Request, about: seq<Update>, attempts: set<Attempt>,
        ci: nat, ri: nat, allOk: bool, ok: bool)
    requires ci < |req.channels| && ri < |req.recipients| && (cfg.shape.FailFast? ==> allOk)
    requires Told(cfg, off, id, req, about, attempts, Here(ci, Sending(ri, allOk)))
    ensures Told(cfg, off, id, req, about, attempts + {Attempt(off, ci, ri, ok)}, Here(ci, Sending(ri + 1, allOk && ok)))
  {
    var cuts: seq<Cut>, o: Oracle :| Tells(cfg, off, id, req, about, attempts, Here(ci, Sending(ri, allOk)), cuts, o);
    var more, p := attempts + {Attempt(off, ci, ri, ok)}, With(o, ci, ri, ok);
    WithEvident(cfg, off, req, attempts, ci, ri, allOk, o, ok);
    UpdatesAgree(cfg.sup, id, req, o, p, ci);
    AttemptsAgree(cfg, off, req, o, p, ci);
    forall k | 0 <= k < |cuts| ensures Genuine(cfg, off, req, more, cuts[k]) {
      GenuineGrows(cfg, off, req, attempts, more, cuts[k]);
    }
    assert Tells(cfg, off, id, req, about, more, Here(ci, Sending(ri + 1, allOk && ok)), cuts, p);
  }

  /** The recipient loop ends where the worker loop of the same shape ends. */
  lemma LoopEndsEvident(cfg: Config, off: nat, req: Request, attempts: set<Attempt>, ci: nat, ri: nat,
        allOk: bool, o: Oracle)
    requires ci < |req.channels| && (ri >= |req.recipients| || (cfg.shape.FailFast? && !allOk))
    requires PhaseEvident(cfg, off, req, attempts, ci, Sending(ri, allOk), o)
    ensures OutcomeEvident(cfg, off, req, attempts, ci, if allOk then COMPLETED else FAILED, o)
  {
    var n := |req.recipients|;
    FailFastStopsAtFirstFailure(o, ci, n);
    assert cfg.shape.FailFast? ==> Attempted(FailFast, o, ci, n) == ri;
  }

  lemma SendsEndTold(cfg: Config, off: nat, id: Id, req: Request, about: seq<Update>, attempts: set<Attempt>,
        ci: nat, ri: nat, allOk: bool)
    requires ci < |req.channels| && (ri >= |req.recipients| || (cfg.shape.FailFast? && !allOk))
    requires Told(cfg, off, id, req, about, attempts, Here(ci, Sending(ri, allOk)))
    ensures Told(cfg, off, id, req, about, attempts, Here(ci, EndRead(if allOk then COMPLETED else FAILED)))
  {
    var cuts: seq<Cut>, o: Oracle :| Tells(cfg, off, id, req, about, attempts, Here(ci, Sending(ri, allOk)), cuts, o);
    LoopEndsEvident(cfg, off, req, attempts, ci, ri, allOk, o);
    assert Tells(cfg, off, id, req, about, attempts, Here(ci, EndRead(if allOk then COMPLETED else FAILED)), cuts, o);
  }

  // ---------------------------------------------------------------- a crash

  lemma {:induction false} AttemptsExtend(cfg: Config, off: nat, req: Request, o: Oracle, m: nat, n: nat)
    requires m <= n <= |req.channels|
    ensures AttemptsOf(cfg, off, req, o, m) <= AttemptsOf(cfg, off, req, o, n)
  {
    if m < n {
      AttemptsExtend(cfg, off, req, o, m, n - 1);
    }
  }

  lemma {:induction false} UpdatesExtend(sup: Table, id: Id, req: Request, o: Oracle, m: nat, n: nat)
    requires m <= n <= |req.channels|
    ensures Updates(sup, id, req, o, m) <= Updates(sup, id, req, o, n)
  {
    if m < n {
      UpdatesExtend(sup, id, req, o, m, n - 1);
    }
  }

  /** How many of its updates a delivery has written. */
  function Length(req: Request, pos: Position): nat {
    match pos
    case Ahead => 0
    case Behind => 2 * |req.channels|
    case Here(ci, phase) => 2 * ci + if ci < |req.channels| && !phase.StartRead? && !phase.StartWrite? then 1 else 0
  }

  /** What was written is the delivery cut there. */
  lemma EmittedIsCut(sup: Table, id: Id, req: Request, o: Oracle, pos: Position)
    requires pos.Here? ==> pos.ci <= |req.channels|
    ensures Emitted(sup, id, req, o, pos) == CutUpdates(sup, id, req, Cut(o, Length(req, pos)))
  {
    UpdatesShape(sup, id, req, o, |req.channels|);
    if pos.Here? {
      var us := AllUpdates(sup, id, req, o);
      UpdatesShape(sup, id, req, o, pos.ci);
      UpdatesExtend(sup, id, req, o, pos.ci, |req.channels|);
      if pos.ci < |req.channels| {
        UpdatesExtend(sup, id, req, o, pos.ci + 1, |req.channels|);
        UpdatesShape(sup, id, req, o, pos.ci + 1);
        assert us[2 * pos.ci] == Updates(sup, id, req, o, pos.ci + 1)[2 * pos.ci] == Update(id, req.channels[pos.ci], PROCESSING);
      }
    }
  }

  lemma EvidentIsGenuine(cfg: Config, off: nat, req: Request, attempts: set<Attempt>, pos: Position, o: Oracle)
    requires pos.Here? ==> pos.ci <= |req.channels|
    requires Evident(cfg, off, req, attempts, pos, o)
    ensures Genuine(cfg, off, req, attempts, Cut(o, Length(req, pos)))
  {
    var here := match pos case Ahead => 0 case Behind => |req.channels| case Here(ci, _) => ci;
    forall n: nat | n <= |req.channels| && 2 * n <= Length(req, pos) ensures AttemptsOf(cfg, off, req, o, n) <= attempts {
      AttemptsExtend(cfg, off, req, o, n, here);
    }
  }

  /** The consumer goes back to before the message: the delivery under way, or the complete one
      behind, becomes one more that was cut short. */
  lemma CrashTold(cfg: Config, off: nat, id: Id, req: Request, about: seq<Update>, attempts: set<Attempt>,
        pos: Position)
    requires Told(cfg, off, id, req, about, attempts, pos)
    ensures Told(cfg, off, id, req, about, attempts, Ahead)
  {
    var cuts: seq<Cut>, o: Oracle :| Tells(cfg, off, id, req, about, attempts, pos, cuts, o);
    var cut := Cut(o, Length(req, pos));
    EmittedIsCut(cfg.sup, id, req, o, pos);
    EvidentIsGenuine(cfg, off, req, attempts, pos, o);
    assert (cuts + [cut])[..|cuts|] == cuts;
    assert about == CutRuns(cfg.sup, id, req, cuts + [cut]) + [];
    assert Tells(cfg, off, id, req, about, attempts, Ahead, cuts + [cut], o);
  }

  // ---------------------------------------------------------------- the machine

  /** The update an action writes about the message at off. */
  function WrittenBy(s: State, a: Action, off: nat): seq<Update>
    requires InHand(s)
  {
    if a.Work? && s.next == off && s.consumer.Busy? then
      var id, req := s.log[off].id, s.log[off].req;
      match s.consumer
      case Busy(ci, StartWrite) => if ci < |req.channels| then [Update(id, req.channels[ci], PROCESSING)] else []
      case Busy(ci, EndWrite(st)) => if ci < |req.channels| then [Update(id, req.channels[ci], st)] else []
      case _ => []
    else []
  }

  /** What a step of the table adds to the updates about one row. */
  function AddedBy(s: Store, step: StoreStep, id: Id): seq<Update> {
    if step.DoFinish? && step.who in s.pending && s.pending[step.who].u.id == id then [s.pending[step.who].u] else []
  }

  lemma AddedAbout(agg: Aggregator, s: Store, step: StoreStep, id: Id)
    ensures About(Next(agg, s, step).journal, id) == About(s.journal, id) + AddedBy(s, step, id)
  {
    if step.DoFinish? && step.who in s.pending {
      AboutSnoc(s.journal, s.pending[step.who].u, id);
    }
  }

  /** A row and its snapshots are told by the updates written about it. */
  ghost predicate RowTold(agg: Aggregator, s: Store, id: Id) {
    id in s.rows && id in s.births ==>
      && ApplyAll(agg, map[id := Initial(s.births[id])], About(s.journal, id)) == map[id := s.rows[id]]
      && forall who :: who in s.pending && s.pending[who].u.id == id ==> s.pending[who].snap == s.rows[id]
  }

  /** No write about this row while somebody else is about to write it. */
  predicate AloneOn(s: Store, step: StoreStep, id: Id) {
    AddedBy(s, step, id) != [] ==> forall who :: who in s.pending && s.pending[who].u.id == id ==> who == step.who
  }

  lemma OneMoreUpdate(agg: Aggregator, r0: Row, r: Row, about: seq<Update>, u: Update)
    requires ApplyAll(agg, map[u.id := r0], about) == map[u.id := r]
    ensures ApplyAll(agg, map[u.id := r0], about + [u]) == map[u.id := Touch(agg, r, u.channel, u.status)]
  {
    ApplyAllSnoc(agg, map[u.id := r0], about, u);
    assert map[u.id := r][u.id := Touch(agg, r, u.channel, u.status)] == map[u.id := Touch(agg, r, u.channel, u.status)];
  }

  lemma OwnFinishKeepsRowTold(agg: Aggregator, s: Store, who: nat, id: Id)
    requires RowTold(agg, s, id) && id in s.rows && id in s.births
    requires who in s.pending && s.pending[who].u.id == id
    requires forall w :: w in s.pending && s.pending[w].u.id == id ==> w == who
    ensures RowTold(agg, Finish(agg, s, who), id)
  {
    var u := s.pending[who].u;
    AboutSnoc(s.journal, u, id);
    OneMoreUpdate(agg, Initial(s.births[id]), s.rows[id], About(s.journal, id), u);
  }

  lemma OtherFinishKeepsRowTold(agg: Aggregator, s: Store, who: nat, id: Id)
    requires RowTold(agg, s, id) && who in s.pending && s.pending[who].u.id != id
    ensures RowTold(agg, Finish(agg, s, who), id)
  {
    AboutSnoc(s.journal, s.pending[who].u, id);
    assert About(s.journal, id) + [] == About(s.journal, id);
  }

  lemma CreateKeepsRowTold(agg: Aggregator, s: Store, channels: set<string>, id: Id)
    requires Consistent(agg, s) && id !in s.rows
    ensures RowTold(agg, Create(s, id, channels), id)
  {
    AboutNobody(s.journal, id);
    forall who | who in s.pending ensures s.pending[who].u.id in s.rows {
      assert Fits(agg, s, s.pending[who].u.id, s.pending[who].snap);
    }
  }

  lemma NextKeepsRowTold(agg: Aggregator, s: Store, step: StoreStep, id: Id)
    requires RowTold(agg, s, id) && Consistent(agg, s) && AloneOn(s, step, id)
    ensures RowTold(agg, Next(agg, s, step), id)
  {
    match step {
      case DoCreate(k, channels) =>
        if k == id && id !in s.rows {
          CreateKeepsRowTold(agg, s, channels, id);
        }
      case DoBegin(_, _) =>
      case DoFinish(who) =>
        if who in s.pending && s.pending[who].u.id == id {
          assert Fits(agg, s, id, s.pending[who].snap);
          OwnFinishKeepsRowTold(agg, s, who, id);
        } else if who in s.pending {
          OtherFinishKeepsRowTold(agg, s, who, id);
        }
      case DoAbandon(_) =>
    }
  }

  /** What an action writes about a row that exists: the worker's write, if that message is in hand. */
  function WrittenAbout(s: State, a: Action, id: Id): seq<Update>
    requires InHand(s)
  {
    if s.next < |s.log| && s.log[s.next].Msg? && s.log[s.next].id == id then WrittenBy(s, a, s.next) else []
  }

  /** A table step keeps rows told and adds these updates about a row. */
  ghost predicate Adds(agg: Aggregator, s: Store, t: Store, id: Id, us: seq<Update>) {
    RowTold(agg, t, id) && (id in s.rows ==> About(t.journal, id) == About(s.journal, id) + us)
  }

  lemma OneStepAdds(agg: Aggregator, s: Store, step: StoreStep, id: Id)
    requires RowTold(agg, s, id) && Consistent(agg, s) && AloneOn(s, step, id)
    ensures Adds(agg, s, Next(agg, s, step), id, AddedBy(s, step, id))
  {
    NextKeepsRowTold(agg, s, step, id);
    AddedAbout(agg, s, step, id);
  }

  lemma NoStepAdds(agg: Aggregator, s: Store, id: Id)
    requires RowTold(agg, s, id)
    ensures Adds(agg, s, s, id, [])
  {
  }

  /** The consumer step that finishes an update writes what is pending for the message in hand. */
  lemma WorkStepAdds(cfg: Config, s: State, ok: bool, step: StoreStep, id: Id)
    requires Settling(s, id) && WorkOnStore(cfg, s) == [step] && id in s.store.rows
    ensures AddedBy(s.store, step, id) == WrittenAbout(s, Work(ok), id)
  {
  }

  lemma WorkStepAlone(cfg: Config, s: State, step: StoreStep, id: Id)
    requires Settling(s, id) && WorkOnStore(cfg, s) == [step]
    ensures AloneOn(s.store, step, id)
  {
  }

  lemma WorkAdds(cfg: Config, s: State, ok: bool, id: Id)
    requires Settling(s, id) && Consistent(cfg.agg, s.store) && RowTold(cfg.agg, s.store, id)
    ensures Adds(cfg.agg, s.store, Step(cfg, s, Work(ok)).store, id, WrittenAbout(s, Work(ok), id))
  {
    var steps := WorkOnStore(cfg, s);
    StepRefines(cfg, s, Work(ok));
    if steps == [] {
      NoStepAdds(cfg.agg, s.store, id);
    } else {
      RunOne(cfg.agg, s.store, steps[0]);
      WorkStepAlone(cfg, s, steps[0], id);
      OneStepAdds(cfg.agg, s.store, steps[0], id);
      if id in s.store.rows {
        WorkStepAdds(cfg, s, ok, steps[0], id);
      }
    }
  }

  lemma AddsNothingTwice(agg: Aggregator, s: Store, t: Store, v: Store, id: Id)
    requires Adds(agg, s, t, id, []) && Adds(agg, t, v, id, []) && s.rows.Keys <= t.rows.Keys
    ensures Adds(agg, s, v, id, [])
  {
  }

  /** A webhook about another row. */
  lemma AtomicAdds(agg: Aggregator, s: Store, who: nat, u: Update, id: Id)
    requires Consistent(agg, s) && RowTold(agg, s, id) && u.id != id && who !in s.pending
    ensures Adds(agg, s, Finish(agg, Begin(s, who, u), who), id, [])
  {
    var read := Begin(s, who, u);
    OneStepAdds(agg, s, DoBegin(who, u), id);
    BeginKeeps(agg, s, who, u);
    OneStepAdds(agg, read, DoFinish(who), id);
    AddsNothingTwice(agg, s, read, Finish(agg, read, who), id);
  }

  lemma HookOnStore(cfg: Config, s: State, who: nat, u: Update)
    ensures Step(cfg, s, Hook(who, u)).store ==
            if who + 1 in s.store.pending then s.store else Finish(cfg.agg, Begin(s.store, who + 1, u), who + 1)
  {
  }

  lemma HookAdds(cfg: Config, s: State, who: nat, u: Update, id: Id)
    requires Consistent(cfg.agg, s.store) && RowTold(cfg.agg, s.store, id) && (who + 1 in s.store.pending || u.id != id)
    ensures Adds(cfg.agg, s.store, Step(cfg, s, Hook(who, u)).store, id, [])
  {
    HookOnStore(cfg, s, who, u);
    if who + 1 in s.store.pending {
      NoStepAdds(cfg.agg, s.store, id);
    } else {
      AtomicAdds(cfg.agg, s.store, who + 1, u, id);
    }
  }

  /** Everything else writes nothing about this row. */
  lemma OthersAdd(cfg: Config, s: State, a: Action, id: Id)
    requires OnlyWorker(s.store, id) && !a.Work? && !a.Hook? && (a.HookRead? ==> a.u.id != id)
    requires Consistent(cfg.agg, s.store) && RowTold(cfg.agg, s.store, id)
    ensures Adds(cfg.agg, s.store, Step(cfg, s, a).store, id, [])
  {
    var steps := OnStore(cfg, s, a);
    StepRefines(cfg, s, a);
    if steps == [] {
      NoStepAdds(cfg.agg, s.store, id);
    } else {
      RunOne(cfg.agg, s.store, steps[0]);
      assert AddedBy(s.store, steps[0], id) == [];
      OneStepAdds(cfg.agg, s.store, steps[0], id);
    }
  }

  lemma NothingWrittenBy(s: State, a: Action, id: Id)
    requires InHand(s)
    ensures !a.Work? ==> WrittenAbout(s, a, id) == []
  {
  }

  lemma StepAdds(cfg: Config, s: State, a: Action, id: Id)
    requires Settling(s, id) && CalmStep(cfg, s, a, id)
    requires a.Hook? ==> a.who + 1 in s.store.pending || a.u.id != id
    requires Consistent(cfg.agg, s.store) && RowTold(cfg.agg, s.store, id)
    ensures Adds(cfg.agg, s.store, Step(cfg, s, a).store, id, WrittenAbout(s, a, id))
  {
    NothingWrittenBy(s, a, id);
    hide Adds, RowTold, Consistent, WrittenAbout, Step;
    match a {
      case Work(ok) => WorkAdds(cfg, s, ok, id);
      case Hook(who, u) => HookAdds(cfg, s, who, u, id);
      case _ => OthersAdd(cfg, s, a, id);
    }
  }

  // ---------------------------------------------------------------- the position

  /** Only the work on the message and a crash to before it move the position. */
  predicate Moves(cfg: Config, s: State, a: Action, off: nat) {
    (a.Work? && s.next == off) || (a.Crash? && a.resume <= off)
  }

  lemma PositionStays(cfg: Config, s: State, a: Action, off: nat)
    requires off < |s.log| && s.log[off].Msg? && Working(cfg, s)
    requires (a.Crash? ==> CalmStep(cfg, s, a, s.log[off].id)) && !Moves(cfg, s, a, off)
    ensures PositionOf(Step(cfg, s, a), off) == PositionOf(s, off)
  {
  }

  lemma CrashPosition(cfg: Config, s: State, resume: nat, off: nat)
    requires resume <= off
    ensures var t := Step(cfg, s, Crash(resume));
            t.attempts == s.attempts && (PositionOf(t, off) == Ahead || t == s)
  {
  }

  /** The message at off with what has been told about it. */
  ghost predicate ToldAt(cfg: Config, s: State, off: nat)
    requires off < |s.log| && s.log[off].Msg?
  {
    Told(cfg, off, s.log[off].id, s.log[off].req, About(s.store.journal, s.log[off].id), s.attempts, PositionOf(s, off))
  }

  /** The work on the message itself. */
  lemma WorkTold(cfg: Config, s: State, ok: bool, off: nat, about: seq<Update>)
    requires off < |s.log| && s.log[off].Msg? && s.next == off && Working(cfg, s)
    requires Told(cfg, off, s.log[off].id, s.log[off].req, about, s.attempts, PositionOf(s, off))
    ensures var t := Consume(cfg, s, ok);
            Told(cfg, off, s.log[off].id, s.log[off].req, about + WrittenBy(s, Work(ok), off), t.attempts, PositionOf(t, off))
  {
    hide Told, About, PhaseOk, ChannelCovered;
    var id, req := s.log[off].id, s.log[off].req;
    var pos := PositionOf(s, off);
    assert about + [] == about;
    match s.consumer {
      case Idle => QuietlyTold(cfg, off, id, req, about, s.attempts, pos, Here(0, StartRead));
      case Busy(ci, phase) =>
        if ci == |req.channels| {
          QuietlyTold(cfg, off, id, req, about, s.attempts, pos, Behind);
        } else {
          ChannelTold(cfg, off, id, req, about, s.attempts, ci, phase, ok);
        }
    }
  }

  /** Where a step of the channel loop leads, and the send it makes. */
  function NextPhase(cfg: Config, req: Request, ci: nat, phase: Phase, ok: bool): Position
    requires ci < |req.channels|
  {
    match phase
    case StartRead => Here(ci, StartWrite)
    case StartWrite => Here(ci, Lookup)
    case Lookup => Here(ci, if cfg.sup(req.channels[ci]) then Sending(0, true) else EndRead(FAILED))
    case Sending(ri, allOk) =>
      if ri >= |req.recipients| || (cfg.shape.FailFast? && !allOk)
      then Here(ci, EndRead(if allOk then COMPLETED else FAILED)) else Here(ci, Sending(ri + 1, allOk && ok))
    case EndRead(st) => Here(ci, EndWrite(st))
    case EndWrite(_) => Here(ci + 1, StartRead)
  }

  function NextAttempts(cfg: Config, off: nat, req: Request, attempts: set<Attempt>, ci: nat, phase: Phase,
        ok: bool): set<Attempt> {
    if phase.Sending? && phase.ri < |req.recipients| && (cfg.shape.FailFast? ==> phase.allOk)
    then attempts + {Attempt(off, ci, phase.ri, ok)} else attempts
  }

  function NextWrite(id: Id, req: Request, ci: nat, phase: Phase): seq<Update>
    requires ci < |req.channels|
  {
    match phase
    case StartWrite => [Update(id, req.channels[ci], PROCESSING)]
    case EndWrite(st) => [Update(id, req.channels[ci], st)]
    case _ => []
  }

  lemma ChannelTold(cfg: Config, off: nat, id: Id, req: Request, about: seq<Update>, attempts: set<Attempt>,
        ci: nat, phase: Phase, ok: bool)
    requires ci < |req.channels| && Told(cfg, off, id, req, about, attempts, Here(ci, phase))
    ensures Told(cfg, off, id, req, about + NextWrite(id, req, ci, phase),
                 NextAttempts(cfg, off, req, attempts, ci, phase, ok), NextPhase(cfg, req, ci, phase, ok))
  {
    assert about + [] == about;
    match phase {
      case StartWrite => OpeningTold(cfg, off, id, req, about, attempts, ci);
      case EndWrite(st) => ClosingTold(cfg, off, id, req, about, attempts, ci, st);
      case Sending(ri, allOk) =>
        if ri >= |req.recipients| || (cfg.shape.FailFast? && !allOk) {
          SendsEndTold(cfg, off, id, req, about, attempts, ci, ri, allOk);
        } else {
          SendTold(cfg, off, id, req, about, attempts, ci, ri, allOk, ok);
        }
      case _ => QuietlyTold(cfg, off, id, req, about, attempts, Here(ci, phase), NextPhase(cfg, req, ci, phase, ok));
    }
  }

  lemma StepTold(cfg: Config, s: State, a: Action, off: nat)
    requires off < |s.log| && s.log[off].Msg? && s.log[off].id in s.store.rows
    requires LogOk(cfg, s) && Working(cfg, s) && CalmStep(cfg, s, a, s.log[off].id) && ToldAt(cfg, s, off)
    requires Adds(cfg.agg, s.store, Step(cfg, s, a).store, s.log[off].id, WrittenAbout(s, a, s.log[off].id))
    ensures var t := Step(cfg, s, a);
            off < |t.log| && t.log[off] == s.log[off] && ToldAt(cfg, t, off)
  {
    var t, id, req := Step(cfg, s, a), s.log[off].id, s.log[off].req;
    var about := About(s.store.journal, id);
    StepGrows(cfg, s, a);
    assert about + [] == about;
    if a.Work? && s.next == off {
      WorkTold(cfg, s, a.ok, off, about);
    } else {
      WrittenElsewhere(cfg, s, a, off);
      if Moves(cfg, s, a, off) {
        CrashPosition(cfg, s, a.resume, off);
        CrashTold(cfg, off, id, req, about, s.attempts, PositionOf(s, off));
      } else {
        PositionStays(cfg, s, a, off);
        ToldGrows(cfg, off, id, req, about, s.attempts, t.attempts, PositionOf(s, off));
      }
    }
  }

  /** The message in hand, if another one, is about another row. */
  lemma WrittenElsewhere(cfg: Config, s: State, a: Action, off: nat)
    requires LogOk(cfg, s) && InHand(s) && off < |s.log| && s.log[off].Msg? && !(a.Work? && s.next == off)
    ensures WrittenAbout(s, a, s.log[off].id) == []
  {
  }

  // ---------------------------------------------------------------- every run

  /** Everything that is known of a state a calm run reaches. */
  lemma CalmState(cfg: Config, run: seq<Action>, id: Id)
    requires Calm(cfg, run, id)
    ensures var s := Exec(cfg, START, run);
            LogOk(cfg, s) && Working(cfg, s) && Settling(s, id) && Consistent(cfg.agg, s.store) && AllHonest(cfg, s)
  {
    CalmRunsSettle(cfg, run, id);
    AlwaysLogOk(cfg, run);
    AlwaysWorking(cfg, run);
    SystemRefinesSplitUpdates(cfg, run);
    AlwaysHonest(cfg, run);
  }

  lemma {:induction false} AlwaysRowTold(cfg: Config, run: seq<Action>, id: Id)
    requires Calm(cfg, run, id) && Unhooked(Exec(cfg, START, run), id)
    ensures RowTold(cfg.agg, Exec(cfg, START, run).store, id)
  {
    if run != [] {
      var r := run[..|run| - 1];
      CalmState(cfg, r, id);
      HooksBefore(cfg, Exec(cfg, START, r), run[|run| - 1], id);
      AlwaysRowTold(cfg, r, id);
      StepAdds(cfg, Exec(cfg, START, r), run[|run| - 1], id);
    }
  }

  lemma NothingAboutRowless(agg: Aggregator, s: Store, id: Id)
    requires Consistent(agg, s) && id !in s.rows
    ensures About(s.journal, id) == []
  {
    AboutNobody(s.journal, id);
  }

  /** The action that logs the message finds nothing told yet. */
  lemma LoggedTold(cfg: Config, s: State, a: Action, off: nat)
    requires Working(cfg, s) && AllHonest(cfg, s)
    requires var t := Step(cfg, s, a);
             |s.log| <= off < |t.log| && t.log[off].Msg? && LogOk(cfg, t) && Unhooked(s, t.log[off].id)
    ensures ToldAt(cfg, Step(cfg, s, a), off)
  {
    var t := Step(cfg, s, a);
    var id := t.log[off].id;
    StepGrows(cfg, s, a);
    forall i | 0 <= i < |s.log| && s.log[i].Msg? ensures s.log[i].id != id {
      assert t.log[i] == s.log[i];
    }
    NothingAboutUnlogged(cfg, s, id);
    AboutNobody(s.store.journal, id);
    OnlyAppends(cfg, s, a);
    NothingTold(cfg, off, id, t.log[off].req, t.attempts);
  }

  lemma OnlyAppends(cfg: Config, s: State, a: Action)
    requires Step(cfg, s, a).log != s.log
    ensures var t := Step(cfg, s, a);
            t.store == s.store && t.next == s.next && t.consumer == s.consumer
  {
  }

  /** And so does the action that creates the row. */
  lemma CreatedTold(cfg: Config, s: State, a: Action, off: nat)
    requires off < |s.log| && s.log[off].Msg? && s.log[off].id !in s.store.rows
    requires CalmStep(cfg, s, a, s.log[off].id) && Consistent(cfg.agg, s.store)
    requires s.log[off].id in Step(cfg, s, a).store.rows && Step(cfg, s, a).log == s.log
    ensures ToldAt(cfg, Step(cfg, s, a), off)
  {
    var t, id := Step(cfg, s, a), s.log[off].id;
    CreatesAhead(cfg, s, a, off);
    NothingAboutRowless(cfg.agg, s.store, id);
    NothingTold(cfg, off, id, t.log[off].req, t.attempts);
  }

  lemma CreatesAhead(cfg: Config, s: State, a: Action, off: nat)
    requires off < |s.log| && s.log[off].Msg? && s.log[off].id !in s.store.rows
    requires CalmStep(cfg, s, a, s.log[off].id) && Consistent(cfg.agg, s.store)
    requires s.log[off].id in Step(cfg, s, a).store.rows
    ensures var t := Step(cfg, s, a);
            t.store.journal == s.store.journal && PositionOf(t, off) == Ahead
  {
    if !a.ApiCreate? {
      UpdatersHaveRows(cfg.agg, s.store);
      OthersKeepRows(cfg, s, a);
    } else {
      assert !TakenUp(s, s.log[off].id);
    }
  }

  lemma AnyStepTold(cfg: Config, s: State, a: Action, off: nat)
    requires LogOk(cfg, s) && Working(cfg, s) && Consistent(cfg.agg, s.store) && AllHonest(cfg, s)
    requires LogOk(cfg, Step(cfg, s, a))
    requires var t := Step(cfg, s, a);
             off < |t.log| && t.log[off].Msg? && t.log[off].id in t.store.rows && Unhooked(t, t.log[off].id)
    requires var id := Step(cfg, s, a).log[off].id;
             && Settling(s, id) && CalmStep(cfg, s, a, id)
             && RowTold(cfg.agg, s.store, id)
             && (off < |s.log| && s.log[off] == Step(cfg, s, a).log[off] && id in s.store.rows ==> ToldAt(cfg, s, off))
    ensures ToldAt(cfg, Step(cfg, s, a), off)
  {
    var t := Step(cfg, s, a);
    HooksBefore(cfg, s, a, t.log[off].id);
    StepGrows(cfg, s, a);
    if off >= |s.log| {
      LoggedTold(cfg, s, a, off);
    } else if t.log[off].id !in s.store.rows {
      LogStaysThen(cfg, s, a, t.log[off].id);
      CreatedTold(cfg, s, a, off);
    } else {
      StepAdds(cfg, s, a, t.log[off].id);
      StepTold(cfg, s, a, off);
    }
  }

  /** An action that creates a row appends nothing. */
  lemma LogStaysThen(cfg: Config, s: State, a: Action, id: Id)
    requires id !in s.store.rows && id in Step(cfg, s, a).store.rows
    ensures Step(cfg, s, a).log == s.log
  {
    if Step(cfg, s, a).log != s.log {
      OnlyAppends(cfg, s, a);
    }
  }

  lemma {:induction false} AlwaysTold(cfg: Config, run: seq<Action>, off: nat)
    requires var s := Exec(cfg, START, run);
             && off < |s.log| && s.log[off].Msg? && s.log[off].id in s.store.rows && Unhooked(s, s.log[off].id)
             && Calm(cfg, run, s.log[off].id)
    ensures ToldAt(cfg, Exec(cfg, START, run), off)
  {
    if run != [] {
      var r := run[..|run| - 1];
      var s, id := Exec(cfg, START, r), Exec(cfg, START, run).log[off].id;
      CalmState(cfg, r, id);
      AlwaysLogOk(cfg, run);
      HooksBefore(cfg, s, run[|run| - 1], id);
      AlwaysRowTold(cfg, r, id);
      if off < |s.log| && s.log[off] == Exec(cfg, START, run).log[off] && id in s.store.rows {
        AlwaysTold(cfg, r, off);
      }
      AnyStepTold(cfg, s, run[|run| - 1], off);
    }
  }

  /** The updates about the message at off are those of some deliveries cut short and a complete one
      with the outcomes of o; every send behind them was made with that outcome; and the row is what
      the complete delivery alone leaves of a fresh row. */
  ghost predicate DeliveredAs(cfg: Config, s: State, off: nat, cuts: seq<Cut>, o: Oracle)
    requires off < |s.log| && s.log[off].Msg?
  {
    var id, req := s.log[off].id, s.log[off].req;
    && About(s.store.journal, id) == CutRuns(cfg.sup, id, req, cuts) + AllUpdates(cfg.sup, id, req, o)
    && AttemptsOf(cfg, off, req, o, |req.channels|) <= s.attempts
    && (forall k :: 0 <= k < |cuts| ==> Genuine(cfg, off, req, s.attempts, cuts[k]))
    && id in s.store.rows
    && ApplyAll(cfg.agg, map[id := Initial(ChannelSet(req.channels))], AllUpdates(cfg.sup, id, req, o)) ==
       map[id := s.store.rows[id]]
  }

  /** Crashes and redeliveries are invisible: once the log is drained, a notification no webhook
      reported on was told by some cut deliveries and a complete one, whose sends are all on record,
      and its row is exactly what that one uninterrupted delivery leaves. */
  lemma CrashesAreInvisible(cfg: Config, run: seq<Action>, off: nat)
    requires var s := Exec(cfg, START, run);
             && Drained(s)
             && off < |s.log| && s.log[off].Msg? && s.log[off].id in s.store.rows && Unhooked(s, s.log[off].id)
             && Calm(cfg, run, s.log[off].id)
    ensures exists cuts: seq<Cut>, o: Oracle :: DeliveredAs(cfg, Exec(cfg, START, run), off, cuts, o)
  {
    var s := Exec(cfg, START, run);
    var id, req := s.log[off].id, s.log[off].req;
    AlwaysTold(cfg, run, off);
    AlwaysRowTold(cfg, run, id);
    AlwaysLogOk(cfg, run);
    assert MessageOk(cfg, s, id, req);
    assert PositionOf(s, off) == Behind;
    var cuts: seq<Cut>, o: Oracle :|
      Tells(cfg, off, id, req, About(s.store.journal, id), s.attempts, Behind, cuts, o);
    RedeliveryIsIdempotent(cfg.agg, cfg.sup, map[id := Initial(ChannelSet(req.channels))], id, req, cuts, o);
    assert DeliveredAs(cfg, s, off, cuts, o);
  }

  /** In the services that create the row first and mark after the work that is so of every
      notification with a row that no webhook reported on, whatever webhooks do to others. */
  lemma RowFirstCrashesAreInvisible(cfg: Config, run: seq<Action>, off: nat)
    requires Orderly(cfg)
    requires var s := Exec(cfg, START, run);
             && Drained(s)
             && off < |s.log| && s.log[off].Msg? && s.log[off].id in s.store.rows && Unhooked(s, s.log[off].id)
    ensures exists cuts: seq<Cut>, o: Oracle :: DeliveredAs(cfg, Exec(cfg, START, run), off, cuts, o)
  {
    OrderlyRunsAreCalm(cfg, run, Exec(cfg, START, run).log[off].id);
    CrashesAreInvisible(cfg, run, off);
  }
}
