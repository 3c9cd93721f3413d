/** At-least-once sending and truthful statuses in every state a run of the protocol can reach, and
    the configurations that lose messages. */
module DeliveryGuarantees {
  import opened Statuses
  import opened Traces
  import opened Deliveries
  import opened SplitUpdates
  import opened Protocol

  // ---------------------------------------------------------------- evidence left by sends

  predicate AttemptedAt(s: State, off: nat, ci: nat, ri: nat) {
    Attempt(off, ci, ri, true) in s.attempts || Attempt(off, ci, ri, false) in s.attempts
  }

  /** A send was attempted to the first n recipients, and the worker had a reason to stop there. */
  predicate CoveredUpTo(cfg: Config, s: State, off: nat, ci: nat, recipients: nat, n: nat) {
    && n <= recipients
    && (forall ri :: 0 <= ri < n ==> AttemptedAt(s, off, ci, ri))
    && (n == recipients || (cfg.shape.FailFast? && n > 0 && Attempt(off, ci, n - 1, false) in s.attempts))
  }

  /** Channel position ci of the message at off: unsupported, or sent to every recipient; the
      fail-fast worker may instead stop right after a failed send. */
  predicate ChannelCovered(cfg: Config, s: State, off: nat, req: Request, ci: nat)
    requires ci < |req.channels|
  {
    cfg.sup(req.channels[ci]) ==>
      exists n :: 0 <= n <= |req.recipients| && CoveredUpTo(cfg, s, off, ci, |req.recipients|, n)
  }

  predicate Covered(cfg: Config, s: State, off: nat)
    requires off < |s.log|
  {
    match s.log[off]
    case Poison => true
    case Msg(_, req) => forall ci :: 0 <= ci < |req.channels| ==> ChannelCovered(cfg, s, off, req, ci)
  }

  /** Everything before the consumer's position has been attempted. */
  predicate AtLeastOnce(cfg: Config, s: State) {
    s.next <= |s.log| && forall off :: 0 <= off < s.next ==> Covered(cfg, s, off)
  }

  predicate Delivered(cfg: Config, s: State, off: nat, req: Request, ci: nat)
    requires ci < |req.channels|
  {
    cfg.sup(req.channels[ci]) && forall ri :: 0 <= ri < |req.recipients| ==> Attempt(off, ci, ri, true) in s.attempts
  }

  predicate Undelivered(cfg: Config, s: State, off: nat, req: Request, ci: nat)
    requires ci < |req.channels|
  {
    !cfg.sup(req.channels[ci]) || exists ri :: 0 <= ri < |req.recipients| && Attempt(off, ci, ri, false) in s.attempts
  }

  /** Later states have at least the evidence of earlier ones. */
  predicate Grows(s: State, t: State) {
    s.log <= t.log && s.attempts <= t.attempts
  }

  lemma StepGrows(cfg: Config, s: State, a: Action)
    ensures Grows(s, Step(cfg, s, a))
  {
  }

  lemma ChannelCoveredGrows(cfg: Config, s: State, t: State, off: nat, req: Request, ci: nat)
    requires Grows(s, t) && ci < |req.channels| && ChannelCovered(cfg, s, off, req, ci)
    ensures ChannelCovered(cfg, t, off, req, ci)
  {
    if cfg.sup(req.channels[ci]) {
      var n :| 0 <= n <= |req.recipients| && CoveredUpTo(cfg, s, off, ci, |req.recipients|, n);
      forall ri | 0 <= ri < n ensures AttemptedAt(t, off, ci, ri) {
        assert AttemptedAt(s, off, ci, ri);
      }
      assert CoveredUpTo(cfg, t, off, ci, |req.recipients|, n);
    }
  }

  lemma CoveredGrows(cfg: Config, s: State, t: State, off: nat)
    requires Grows(s, t) && off < |s.log| && Covered(cfg, s, off)
    ensures Covered(cfg, t, off)
  {
    if s.log[off].Msg? {
      var req := s.log[off].req;
      forall ci | 0 <= ci < |req.channels| ensures ChannelCovered(cfg, t, off, req, ci) {
        ChannelCoveredGrows(cfg, s, t, off, req, ci);
      }
    }
  }

  // ---------------------------------------------------------------- the consumer at work

  /** The message in hand. */
  predicate InHand(s: State) {
    s.consumer.Busy? ==> s.next < |s.log| && s.log[s.next].Msg? && s.consumer.ci <= |s.log[s.next].req.channels|
  }

  predicate PhaseOk(cfg: Config, s: State, req: Request, ci: nat, phase: Phase)
    requires ci < |req.channels|
  {
    match phase
    case Sending(ri, allOk) =>
      && cfg.sup(req.channels[ci])
      && ri <= |req.recipients|
      && (forall k :: 0 <= k < ri ==> AttemptedAt(s, s.next, ci, k))
      && (allOk ==> forall k :: 0 <= k < ri ==> Attempt(s.next, ci, k, true) in s.attempts)
      && (!allOk ==> exists k :: 0 <= k < ri && Attempt(s.next, ci, k, false) in s.attempts)
      && (!allOk && cfg.shape.FailFast? ==> ri > 0 && Attempt(s.next, ci, ri - 1, false) in s.attempts)
    case EndRead(st) => Concluded(cfg, s, req, ci, st)
    case EndWrite(st) => Concluded(cfg, s, req, ci, st)
    case _ => true
  }

  /** The outcome the worker is about to record is backed by its sends. */
  predicate Concluded(cfg: Config, s: State, req: Request, ci: nat, st: string)
    requires ci < |req.channels|
  {
    && ChannelCovered(cfg, s, s.next, req, ci)
    && ((st == COMPLETED && Delivered(cfg, s, s.next, req, ci)) || (st == FAILED && Undelivered(cfg, s, s.next, req, ci)))
  }

  ghost predicate Working(cfg: Config, s: State) {
    && s.next <= |s.log|
    && InHand(s)
    && (s.consumer.Busy? ==>
          var req, ci, phase := s.log[s.next].req, s.consumer.ci, s.consumer.phase;
          && (forall cj :: 0 <= cj < ci ==> ChannelCovered(cfg, s, s.next, req, cj))
          && (ci < |req.channels| ==> PhaseOk(cfg, s, req, ci, phase))
          && (ci == |req.channels| ==> phase == StartRead))
  }

  lemma PhaseOkGrows(cfg: Config, s: State, t: State, req: Request, ci: nat, phase: Phase)
    requires Grows(s, t) && t.next == s.next && ci < |req.channels| && PhaseOk(cfg, s, req, ci, phase)
    ensures PhaseOk(cfg, t, req, ci, phase)
  {
    match phase {
      case Sending(ri, _) =>
        forall k | 0 <= k < ri ensures AttemptedAt(t, t.next, ci, k) {
          assert AttemptedAt(s, s.next, ci, k);
        }
      case EndRead(st) => ConcludedGrows(cfg, s, t, req, ci, st);
      case EndWrite(st) => ConcludedGrows(cfg, s, t, req, ci, st);
      case _ =>
    }
  }

  lemma ConcludedGrows(cfg: Config, s: State, t: State, req: Request, ci: nat, st: string)
    requires Grows(s, t) && t.next == s.next && ci < |req.channels| && Concluded(cfg, s, req, ci, st)
    ensures Concluded(cfg, t, req, ci, st)
  {
    ChannelCoveredGrows(cfg, s, t, s.next, req, ci);
  }

  lemma WorkingStays(cfg: Config, s: State, t: State)
    requires Working(cfg, s) && Grows(s, t) && t.next == s.next && t.consumer == s.consumer
    ensures Working(cfg, t)
  {
    if s.consumer.Busy? {
      var req, ci := s.log[s.next].req, s.consumer.ci;
      forall cj | 0 <= cj < ci ensures ChannelCovered(cfg, t, t.next, req, cj) {
        ChannelCoveredGrows(cfg, s, t, s.next, req, cj);
      }
      if ci < |req.channels| {
        PhaseOkGrows(cfg, s, t, req, ci, s.consumer.phase);
      }
    }
  }

  /** Leaving the recipient loop: the outcome is backed by the sends just made. */
  lemma SendingEnds(cfg: Config, s: State, req: Request, ci: nat, ri: nat, allOk: bool)
    requires ci < |req.channels| && PhaseOk(cfg, s, req, ci, Sending(ri, allOk))
    requires ri >= |req.recipients| || (cfg.shape.FailFast? && !allOk)
    ensures Concluded(cfg, s, req, ci, if allOk then COMPLETED else FAILED)
  {
    assert CoveredUpTo(cfg, s, s.next, ci, |req.recipients|, ri);
  }

  lemma SendingGoesOn(cfg: Config, s: State, req: Request, ci: nat, ri: nat, allOk: bool, ok: bool)
    requires ci < |req.channels| && PhaseOk(cfg, s, req, ci, Sending(ri, allOk)) && ri < |req.recipients|
    requires cfg.shape.FailFast? ==> allOk
    ensures var t := s.(attempts := s.attempts + {Attempt(s.next, ci, ri, ok)}, consumer := Busy(ci, Sending(ri + 1, allOk && ok)));
            PhaseOk(cfg, t, req, ci, Sending(ri + 1, allOk && ok))
  {
    var t := s.(attempts := s.attempts + {Attempt(s.next, ci, ri, ok)}, consumer := Busy(ci, Sending(ri + 1, allOk && ok)));
    forall k | 0 <= k < ri + 1 ensures AttemptedAt(t, t.next, ci, k) {
      if k < ri {
        assert AttemptedAt(s, s.next, ci, k);
      }
    }
    if !ok {
      assert Attempt(t.next, ci, ri, false) in t.attempts;
    } else if !allOk {
      var k :| 0 <= k < ri && Attempt(s.next, ci, k, false) in s.attempts;
      assert Attempt(t.next, ci, k, false) in t.attempts;
    }
  }

  lemma OnChannelKeepsWorking(cfg: Config, s: State, ok: bool)
    requires Working(cfg, s) && s.consumer.Busy? && s.consumer.ci < |s.log[s.next].req.channels|
    ensures Working(cfg, Consume(cfg, s, ok))
  {
    var t := Consume(cfg, s, ok);
    var req, ci := s.log[s.next].req, s.consumer.ci;
    forall cj | 0 <= cj < ci ensures ChannelCovered(cfg, t, t.next, req, cj) {
      ChannelCoveredGrows(cfg, s, t, s.next, req, cj);
    }
    match s.consumer.phase {
      case StartRead =>
      case StartWrite =>
      case Lookup =>
      case Sending(ri, allOk) =>
        if ri >= |req.recipients| || (cfg.shape.FailFast? && !allOk) {
          SendingEnds(cfg, s, req, ci, ri, allOk);
          ConcludedGrows(cfg, s, t, req, ci, if allOk then COMPLETED else FAILED);
        } else {
          SendingGoesOn(cfg, s, req, ci, ri, allOk, ok);
        }
      case EndRead(st) => ConcludedGrows(cfg, s, t, req, ci, st);
      case EndWrite(st) => ChannelCoveredGrows(cfg, s, t, s.next, req, ci);
    }
  }

  lemma StepKeepsWorking(cfg: Config, s: State, a: Action)
    requires Working(cfg, s)
    ensures Working(cfg, Step(cfg, s, a))
  {
    StepGrows(cfg, s, a);
    match a {
      case Work(ok) =>
        if s.consumer.Busy? && s.consumer.ci < |s.log[s.next].req.channels| {
          OnChannelKeepsWorking(cfg, s, ok);
        }
      case Crash(resume) =>
        if resume > Marked(cfg, s) {
          WorkingStays(cfg, s, s);
        }
      case _ => WorkingStays(cfg, s, Step(cfg, s, a));
    }
  }

  /** Finishing a message covers it. */
  lemma FinishedIsCovered(cfg: Config, s: State, ok: bool)
    requires Working(cfg, s) && Consume(cfg, s, ok).next != s.next
    ensures s.next < |s.log| && Consume(cfg, s, ok).next == s.next + 1 && Covered(cfg, s, s.next)
  {
  }

  // ---------------------------------------------------------------- at-least-once

  /** A crash that resumes past the message in hand although some of its sends were never made. */
  predicate SkippingCrash(cfg: Config, s: State, a: Action) {
    && a.Crash?
    && s.next < a.resume <= Marked(cfg, s)
    && s.next < |s.log|
    && !Covered(cfg, s, s.next)
  }

  ghost predicate NoSkippingCrash(cfg: Config, run: seq<Action>) {
    run == [] ||
    (NoSkippingCrash(cfg, run[..|run| - 1]) && !SkippingCrash(cfg, Exec(cfg, START, run[..|run| - 1]), run[|run| - 1]))
  }

  lemma StepAtLeastOnceIff(cfg: Config, s: State, a: Action)
    requires Working(cfg, s) && AtLeastOnce(cfg, s)
    ensures AtLeastOnce(cfg, Step(cfg, s, a)) <==> !SkippingCrash(cfg, s, a)
  {
    var t := Step(cfg, s, a);
    StepGrows(cfg, s, a);
    forall off | 0 <= off < s.next ensures Covered(cfg, t, off) {
      CoveredGrows(cfg, s, t, off);
    }
    if t.next > s.next && a.Work? {
      FinishedIsCovered(cfg, s, a.ok);
      CoveredGrows(cfg, s, t, s.next);
    } else if t.next > s.next {
      assert a.Crash? && t.next == s.next + 1 && t.log == s.log && t.attempts == s.attempts;
      if Covered(cfg, s, s.next) {
        CoveredGrows(cfg, s, t, s.next);
      } else if Covered(cfg, t, s.next) {
        CoveredGrows(cfg, t, s, s.next);
      }
    }
  }

  lemma {:induction false} AlwaysWorking(cfg: Config, run: seq<Action>)
    ensures Working(cfg, Exec(cfg, START, run))
  {
    if run != [] {
      AlwaysWorking(cfg, run[..|run| - 1]);
      StepKeepsWorking(cfg, Exec(cfg, START, run[..|run| - 1]), run[|run| - 1]);
    }
  }

  /** At the end of the run and at every moment before. */
  ghost predicate AlwaysAtLeastOnce(cfg: Config, run: seq<Action>) {
    AtLeastOnce(cfg, Exec(cfg, START, run)) && (run != [] ==> AlwaysAtLeastOnce(cfg, run[..|run| - 1]))
  }

  /** At-least-once, exactly: all along a run every entry before the consumer's position has been
      attempted if and only if no crash resumed past a message in hand with sends still to make. */
  lemma {:induction false} AtLeastOnceIff(cfg: Config, run: seq<Action>)
    ensures AlwaysAtLeastOnce(cfg, run) <==> NoSkippingCrash(cfg, run)
  {
    if run != [] {
      var r := run[..|run| - 1];
      AtLeastOnceIff(cfg, r);
      AlwaysWorking(cfg, r);
      if AlwaysAtLeastOnce(cfg, r) {
        StepAtLeastOnceIff(cfg, Exec(cfg, START, r), run[|run| - 1]);
      }
    }
  }

  lemma {:induction false} MarkAfterWorkNeverSkips(cfg: Config, run: seq<Action>)
    requires !cfg.marksOnReceipt
    ensures NoSkippingCrash(cfg, run)
  {
    if run != [] {
      MarkAfterWorkNeverSkips(cfg, run[..|run| - 1]);
    }
  }

  lemma {:induction false} ExecGrows(cfg: Config, run: seq<Action>, k: nat)
    requires k <= |run|
    ensures Grows(Exec(cfg, START, run[..k]), Exec(cfg, START, run))
  {
    if k == |run| {
      assert run[..k] == run;
    } else {
      var r := run[..|run| - 1];
      ExecGrows(cfg, r, k);
      assert r[..k] == run[..k];
      StepGrows(cfg, Exec(cfg, START, r), run[|run| - 1]);
    }
  }

  /** Workers that mark after the work (Go, TypeScript, Java): whatever the crashes, every entry any
      session ever moved past is unparseable or was attempted, and stays so. */
  lemma MarkAfterWorkIsAtLeastOnce(cfg: Config, run: seq<Action>, k: nat, off: nat)
    requires !cfg.marksOnReceipt
    requires k <= |run| && off < Exec(cfg, START, run[..k]).next
    ensures off < |Exec(cfg, START, run).log| && Covered(cfg, Exec(cfg, START, run), off)
  {
    MarkAfterWorkNeverSkips(cfg, run[..k]);
    AtLeastOnceIff(cfg, run[..k]);
    ExecGrows(cfg, run, k);
    CoveredGrows(cfg, Exec(cfg, START, run[..k]), Exec(cfg, START, run), off);
  }

  /** For a keep-going worker, covered means every recipient of every supported channel. */
  lemma KeepGoingReachesEveryone(cfg: Config, s: State, off: nat, ci: nat, ri: nat)
    requires cfg.shape.KeepGoing? && off < |s.log| && s.log[off].Msg? && Covered(cfg, s, off)
    requires ci < |s.log[off].req.channels| && cfg.sup(s.log[off].req.channels[ci]) && ri < |s.log[off].req.recipients|
    ensures AttemptedAt(s, off, ci, ri)
  {
    var req := s.log[off].req;
    assert ChannelCovered(cfg, s, off, req, ci);
    var n :| 0 <= n <= |req.recipients| && CoveredUpTo(cfg, s, off, ci, |req.recipients|, n);
  }

  /** A call, the message taken up, its offset committed on receipt, the worker gone. */
  function LosingRun(cfg: Config, id: Id, req: Request): seq<Action> {
    CallRun(cfg, id, req, true, true) + [Work(true), Crash(1)]
  }

  lemma LosingRunLoses(cfg: Config, id: Id, req: Request)
    requires cfg.marksOnReceipt
    ensures Exec(cfg, START, LosingRun(cfg, id, req)) == Called(id, req).(next := 1)
  {
    var run := CallRun(cfg, id, req, true, true);
    var s := Called(id, req);
    FirstCall(cfg, id, req);
    ExecSnoc(cfg, START, run, Work(true));
    assert Step(cfg, s, Work(true)) == s.(consumer := Busy(0, StartRead));
    ExecSnoc(cfg, START, run + [Work(true)], Crash(1));
    assert run + [Work(true)] + [Crash(1)] == LosingRun(cfg, id, req);
    assert s.store.pending - {WORKER} == s.store.pending;
  }

  lemma NothingSentNothingCovered(cfg: Config, s: State, req: Request)
    requires req.channels != [] && cfg.sup(req.channels[0]) && req.recipients != [] && s.attempts == {}
    ensures !ChannelCovered(cfg, s, 0, req, 0)
  {
    forall n: nat | n <= |req.recipients| ensures !CoveredUpTo(cfg, s, 0, 0, |req.recipients|, n) {
      assert !AttemptedAt(s, 0, 0, 0);
    }
  }

  /** Rust leaves marking to auto-commit, and there the promise fails: the worker takes a message up,
      its offset is committed, the process dies and resumes behind it. The log is drained, nothing
      was ever sent, and the row is still as created. */
  lemma MarkOnReceiptLosesMessages(cfg: Config, id: Id, req: Request)
    requires cfg.marksOnReceipt
    requires req.channels != [] && cfg.sup(req.channels[0]) && req.recipients != []
    ensures var s := Exec(cfg, START, LosingRun(cfg, id, req));
            && Drained(s) && s.log == [Msg(id, req)]
            && s.attempts == {} && !AtLeastOnce(cfg, s)
            && s.store.rows == map[id := Initial(ChannelSet(req.channels))]
  {
    LosingRunLoses(cfg, id, req);
    var s := Exec(cfg, START, LosingRun(cfg, id, req));
    NothingSentNothingCovered(cfg, s, req);
    assert !Covered(cfg, s, 0);
  }

  /** The Rust service as it is, on an ordinary request. */
  lemma RustLosesMessages(id: Id)
    ensures exists run ::
              var s := Exec(ConfigOf(Rust), START, run);
              Drained(s) && s.log == [Msg(id, Request(["email"], ["user"], "hi"))] && s.attempts == {}
  {
    var req := Request(["email"], ["user"], "hi");
    assert AdaptersOf(Rust)[0]("email");
    MarkOnReceiptLosesMessages(ConfigOf(Rust), id, req);
  }

  /** At-least-once, read off the configuration: every reachable state keeps the promise if and only
      if offsets are marked after the work, or no channel has an adapter and nothing is ever owed. */
  lemma AtLeastOnceConfigurations(cfg: Config)
    ensures (forall run :: AtLeastOnce(cfg, Exec(cfg, START, run))) <==>
            !cfg.marksOnReceipt || forall c :: !cfg.sup(c)
  {
    if cfg.marksOnReceipt && exists c :: cfg.sup(c) {
      var c :| cfg.sup(c);
      MarkOnReceiptLosesMessages(cfg, "n", Request([c], ["user"], ""));
    } else {
      forall run ensures AtLeastOnce(cfg, Exec(cfg, START, run)) {
        AlwaysWorking(cfg, run);
        if !cfg.marksOnReceipt {
          MarkAfterWorkNeverSkips(cfg, run);
          AtLeastOnceIff(cfg, run);
        }
      }
    }
  }

  // ---------------------------------------------------------------- truthful statuses

  /** The update comes from a message for this id and channel, and its status is PROCESSING or the
      outcome the recorded sends call for. */
  predicate Backed(cfg: Config, s: State, u: Update, off: nat, ci: nat) {
    && off < |s.log|
    && s.log[off].Msg? && s.log[off].id == u.id
    && ci < |s.log[off].req.channels| && s.log[off].req.channels[ci] == u.channel
    && (u.status == PROCESSING ||
        (u.status == COMPLETED && Delivered(cfg, s, off, s.log[off].req, ci)) ||
        (u.status == FAILED && Undelivered(cfg, s, off, s.log[off].req, ci)))
  }

  ghost predicate Honest(cfg: Config, s: State, u: Update) {
    u in s.hooked || exists off: nat, ci: nat :: Backed(cfg, s, u, off, ci)
  }

  ghost predicate AllHonest(cfg: Config, s: State) {
    && (forall u :: u in s.store.journal ==> Honest(cfg, s, u))
    && (forall who :: who in s.store.pending ==> Honest(cfg, s, s.store.pending[who].u))
  }

  lemma HonestStays(cfg: Config, s: State, t: State, u: Update)
    requires Honest(cfg, s, u) && Grows(s, t) && s.hooked <= t.hooked
    ensures Honest(cfg, t, u)
  {
    if off: nat, ci: nat :| Backed(cfg, s, u, off, ci) {
      assert t.log[off] == s.log[off];
      assert Backed(cfg, t, u, off, ci);
    }
  }

  /** The update a consumer step begins, if any, is honest. */
  lemma WorkBeginsHonest(cfg: Config, s: State, u: Update, who: nat)
    requires Working(cfg, s)
    requires WorkOnStore(cfg, s) == [DoBegin(who, u)]
    ensures Honest(cfg, s, u)
  {
    assert Backed(cfg, s, u, s.next, s.consumer.ci);
  }

  /** Every store step keeps honesty when what it begins is honest. */
  lemma StoreStepKeepsHonest(cfg: Config, s: State, store: Store, step: StoreStep)
    requires AllHonest(cfg, s.(store := store))
    requires step.DoBegin? ==> Honest(cfg, s, step.u)
    ensures AllHonest(cfg, s.(store := Next(cfg.agg, store, step)))
  {
    var a, b := s.(store := store), s.(store := Next(cfg.agg, store, step));
    forall u | Honest(cfg, a, u) || Honest(cfg, s, u) ensures Honest(cfg, b, u) {
      if Honest(cfg, a, u) {
        HonestStays(cfg, a, b, u);
      } else {
        HonestStays(cfg, s, b, u);
      }
    }
  }

  lemma StepKeepsHonest(cfg: Config, s: State, a: Action)
    requires Working(cfg, s) && AllHonest(cfg, s)
    ensures AllHonest(cfg, Step(cfg, s, a))
  {
    var t := Step(cfg, s, a);
    StepGrows(cfg, s, a);
    assert s.hooked <= t.hooked;
    var t0 := t.(store := s.store);
    forall u | Honest(cfg, s, u) ensures Honest(cfg, t, u) && Honest(cfg, t0, u) {
      HonestStays(cfg, s, t, u);
      HonestStays(cfg, s, t0, u);
    }
    var steps := OnStore(cfg, s, a);
    StepRefines(cfg, s, a);
    if |steps| == 0 {
      assert t == t0;
    } else {
      if steps[0].DoBegin? && a.Work? {
        WorkBeginsHonest(cfg, s, steps[0].u, steps[0].who);
      }
      RunOne(cfg.agg, s.store, steps[0]);
      StoreStepKeepsHonest(cfg, t, s.store, steps[0]);
      if |steps| == 2 {
        StoreStepKeepsHonest(cfg, t, Next(cfg.agg, s.store, steps[0]), steps[1]);
        assert steps[..1] == [steps[0]];
      }
    }
  }

  lemma {:induction false} AlwaysHonest(cfg: Config, run: seq<Action>)
    ensures AllHonest(cfg, Exec(cfg, START, run))
  {
    if run != [] {
      var r := run[..|run| - 1];
      AlwaysHonest(cfg, r);
      AlwaysWorking(cfg, r);
      StepKeepsHonest(cfg, Exec(cfg, START, r), run[|run| - 1]);
    }
  }

  /** No status lies: in every reachable state a channel shown COMPLETED was reported so by a webhook
      or was sent successfully to every recipient of a message for that id, and a channel shown
      FAILED was reported so or has no adapter or a recorded failed send. */
  lemma StatusesAreTruthful(cfg: Config, run: seq<Action>, id: Id, c: string)
    requires var s := Exec(cfg, START, run);
             id in s.store.rows && c in s.store.rows[id].channels
    ensures var s := Exec(cfg, START, run);
            var u := Update(id, c, s.store.rows[id].channels[c]);
            u.status == PENDING || Honest(cfg, s, u)
  {
    SystemRefinesSplitUpdates(cfg, run);
    AlwaysHonest(cfg, run);
    var s := Exec(cfg, START, run);
    assert Fits(cfg.agg, s.store, id, s.store.rows[id]);
  }
}
