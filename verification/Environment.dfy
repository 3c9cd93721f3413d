/** What the surroundings of the services do to them: calls and webhooks that die, bytes nobody can
    parse, and where a restarted consumer may resume. */
module Environment {
  import opened Statuses
  import opened Traces
  import opened Deliveries
  import opened SplitUpdates
  import opened Protocol
  import opened DeliveryGuarantees
  import opened Intake

  // ---------------------------------------------------------------- dead calls

  /** No call works for this id, and none ever will. */
  predicate Over(s: State, id: Id) {
    id in s.used && id !in s.calls
  }

  lemma OverStays(cfg: Config, s: State, a: Action, id: Id)
    requires Over(s, id) && PendingOk(s.store)
    ensures var t := Step(cfg, s, a);
            && Over(t, id)
            && (Logged(t.log, id) <==> Logged(s.log, id))
            && (id in t.store.rows <==> id in s.store.rows)
  {
    if FromApi(a) {
      ApiLeavesOver(cfg, s, a, id);
    } else {
      OthersLeaveLog(cfg, s, a);
      OthersKeepRows(cfg, s, a);
    }
  }

  lemma ApiLeavesOver(cfg: Config, s: State, a: Action, id: Id)
    requires Over(s, id) && FromApi(a)
    ensures var t := Step(cfg, s, a);
            && Over(t, id)
            && (Logged(t.log, id) <==> Logged(s.log, id))
            && (id in t.store.rows <==> id in s.store.rows)
  {
    var t := Step(cfg, s, a);
    if t.log != s.log {
      var e := t.log[|s.log|];
      assert t.log == s.log + [e] && (e.Msg? ==> e.id != id);
      NotLoggedBy(s.log, e, id);
    }
  }

  lemma NotLoggedBy(log: seq<Entry>, e: Entry, id: Id)
    requires e.Msg? ==> e.id != id
    ensures Logged(log + [e], id) <==> Logged(log, id)
  {
    LoggedStays(log, e, id);
    if Logged(log + [e], id) {
      var i :| 0 <= i < |log + [e]| && (log + [e])[i].Msg? && (log + [e])[i].id == id;
      assert i < |log| && log[i] == (log + [e])[i];
    }
  }

  /** A call that dies stays dead: whatever happens afterwards, it neither produces its message nor
      creates its row, and nobody else does. */
  lemma {:induction false} DeadCallsStayDead(cfg: Config, before: seq<Action>, id: Id, after: seq<Action>)
    requires id in Exec(cfg, START, before).used
    ensures var s, t := Exec(cfg, START, before), Exec(cfg, START, before + [ApiDies(id)] + after);
            && Over(t, id)
            && (Logged(t.log, id) <==> Logged(s.log, id))
            && (id in t.store.rows <==> id in s.store.rows)
  {
    var dead := before + [ApiDies(id)];
    ExecSnoc(cfg, START, before, ApiDies(id));
    if after == [] {
      assert dead + after == dead;
    } else {
      var r, a := dead + after[..|after| - 1], after[|after| - 1];
      DeadCallsStayDead(cfg, before, id, after[..|after| - 1]);
      PendingHaveRows(cfg, r);
      OverStays(cfg, Exec(cfg, START, r), a, id);
      assert dead + after == r + [a];
      ExecSnoc(cfg, START, r, a);
    }
  }

  // ---------------------------------------------------------------- bad entries

  /** Bytes that do not parse go to the end of the log and cost the idle consumer one step: nothing is
      sent, nothing written, and the next message is as near as before. */
  lemma BadEntriesArePassed(cfg: Config, s: State, ok: bool)
    requires Drained(s) && s.next == |s.log|
    ensures Step(cfg, s, PoisonArrives).log[|s.log|..] == [Poison]
    ensures !Drained(Step(cfg, s, PoisonArrives))
    ensures Step(cfg, Step(cfg, s, PoisonArrives), Work(ok)) == s.(log := s.log + [Poison], next := |s.log| + 1)
  {
  }

  // ---------------------------------------------------------------- dead webhooks

  predicate NeverReads(run: seq<Action>, who: nat) {
    forall k :: 0 <= k < |run| && run[k].HookRead? ==> run[k].who != who
  }

  lemma NobodyBegins(agg: Aggregator, s: Store, step: StoreStep, w: nat)
    requires w !in s.pending && (step.DoBegin? ==> step.who != w)
    ensures w !in Next(agg, s, step).pending
  {
  }

  lemma IdleWebhookStays(cfg: Config, s: State, a: Action, who: nat)
    requires who + 1 !in s.store.pending && (a.HookRead? ==> a.who != who)
    ensures who + 1 !in Step(cfg, s, a).store.pending
  {
    var steps := OnStore(cfg, s, a);
    StepRefines(cfg, s, a);
    if |steps| == 1 {
      RunOne(cfg.agg, s.store, steps[0]);
      NobodyBegins(cfg.agg, s.store, steps[0], who + 1);
    } else if |steps| == 2 {
      AtomicHookLeavesNothing(cfg, s, a, who);
    }
  }

  lemma AtomicHookLeavesNothing(cfg: Config, s: State, a: Action, who: nat)
    requires who + 1 !in s.store.pending && a.Hook?
    ensures who + 1 !in Step(cfg, s, a).store.pending
  {
  }

  lemma WriteOfNothing(cfg: Config, s: State, who: nat)
    ensures who + 1 !in s.store.pending ==> Step(cfg, s, HookWrite(who)) == s
  {
  }

  lemma DiesForGood(cfg: Config, s: State, who: nat)
    ensures who + 1 !in Step(cfg, s, HookDies(who)).store.pending
  {
  }

  /** A webhook that died between its read and its write never writes: until it reads again, its write
      changes nothing, at any later time. */
  lemma {:induction false} DeadWebhooksNeverWrite(cfg: Config, s: State, who: nat, run: seq<Action>)
    requires NeverReads(run, who)
    ensures var t := Exec(cfg, Step(cfg, s, HookDies(who)), run);
            who + 1 !in t.store.pending && Step(cfg, t, HookWrite(who)) == t
  {
    WriteOfNothing(cfg, Exec(cfg, Step(cfg, s, HookDies(who)), run), who);
    DiesForGood(cfg, s, who);
    hide Step;
    if run != [] {
      var r := run[..|run| - 1];
      DeadWebhooksNeverWrite(cfg, s, who, r);
      IdleWebhookStays(cfg, Exec(cfg, Step(cfg, s, HookDies(who)), r), run[|run| - 1], who);
    }
  }

  // ---------------------------------------------------------------- restarts

  /** The offsets a restarted consumer may resume from: any up to the message in hand; and under
      auto-commit, at any channel and phase of that message, the one behind it. */
  predicate MayResume(cfg: Config, s: State, resume: nat) {
    resume <= s.next || (cfg.marksOnReceipt && s.consumer.Busy? && resume == s.next + 1)
  }

  /** A restart resumes at exactly those, idle, its own update gone, rows, log and sends untouched; an
      offset never marked is not resumed from. */
  lemma RestartsResume(cfg: Config, s: State, resume: nat)
    ensures var t := Step(cfg, s, Crash(resume));
            if MayResume(cfg, s, resume)
            then && t.next == resume && t.consumer.Idle? && WORKER !in t.store.pending
                 && t.store.rows == s.store.rows && t.store.journal == s.store.journal
                 && t.log == s.log && t.attempts == s.attempts && t.calls == s.calls
            else t == s
  {
  }

  /** And only Rust may skip the message in hand. */
  lemma OnlyRustSkips(d: Dialect, s: State)
    requires s.consumer.Busy?
    ensures Step(ConfigOf(d), s, Crash(s.next + 1)).next == s.next + 1 <==> d.Rust?
  {
  }
}
