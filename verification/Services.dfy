/** The four services by name: which channels each one serves, in which order and at which point it
    creates, produces and marks, how it reads a status, and that the machine of its configuration does
    what its own worker loop does. */
module Services {
  import opened Statuses
  import opened Traces
  import opened Deliveries
  import opened SplitUpdates
  import opened StatusServices
  import opened Workers
  import opened Protocol
  import opened DeliveryGuarantees
  import opened Intake
  import opened Undisturbed

  // ---------------------------------------------------------------- adapters

  /** Java's `equalsIgnoreCase` on a channel name given in capitals. */
  predicate JavaNames(c: string, word: string) {
    |c| == |word| && forall i :: 0 <= i < |c| ==>
      || UpperChar(c[i]) == word[i]
      || (word[i] == 'I' && (c[i] == '\U{0130}' || c[i] == '\U{0131}'))
      || (word[i] == 'S' && c[i] == '\U{017F}')
  }

  predicate Ascii(c: string) {
    forall i :: 0 <= i < |c| ==> c[i] < '\U{0080}'
  }

  lemma JavaNamed(c: string, name: string, word: string)
    requires (name, word) == ("email", "EMAIL") || (name, word) == ("sms", "SMS") || (name, word) == ("push", "PUSH")
    ensures EqualBy(JavaFold, c, name) <==> JavaNames(c, word)
    ensures Upper(c) == word ==> JavaNames(c, word)
    ensures Ascii(c) && JavaNames(c, word) ==> Upper(c) == word
  {
    if |c| == |word| {
      forall i | 0 <= i < |c|
        ensures JavaFold(c[i]) == JavaFold(name[i]) <==>
                || UpperChar(c[i]) == word[i]
                || (word[i] == 'I' && (c[i] == '\U{0130}' || c[i] == '\U{0131}'))
                || (word[i] == 'S' && c[i] == '\U{017F}')
      {
      }
      if Upper(c) == word {
        forall i | 0 <= i < |c| ensures UpperChar(c[i]) == word[i] {
          assert Upper(c)[i] == word[i];
        }
      }
    }
  }

  /** Three adapters, looked at one by one. */
  lemma SomeAdapter(d: Dialect, c: string)
    ensures TableOf(AdaptersOf(d))(c) <==> Named(d, "email")(c) || Named(d, "sms")(c) || Named(d, "push")(c)
  {
    var all := AdaptersOf(d);
    if i :| 0 <= i < |all| && all[i](c) {
      assert i == 0 || i == 1 || i == 2;
    }
    assert all[0] == Named(d, "email") && all[1] == Named(d, "sms") && all[2] == Named(d, "push");
    assert all[0](c) || all[1](c) || all[2](c) ==> TableOf(all)(c);
  }

  /** The channels with an adapter: email, sms and push, in Java in any case. */
  lemma ServiceChannels(d: Dialect, c: string)
    ensures var supported := ConfigOf(d).sup(c);
            && (!d.Java? ==> (supported <==> c in {"email", "sms", "push"}))
            && (d.Java? ==> (supported <==> JavaNames(c, "EMAIL") || JavaNames(c, "SMS") || JavaNames(c, "PUSH")))
            && (d.Java? && Upper(c) in {"EMAIL", "SMS", "PUSH"} ==> supported)
            && (d.Java? && Ascii(c) ==> (supported <==> Upper(c) in {"EMAIL", "SMS", "PUSH"}))
  {
    SomeAdapter(d, c);
    JavaNamed(c, "email", "EMAIL");
    JavaNamed(c, "sms", "SMS");
    JavaNamed(c, "push", "PUSH");
  }

  // ---------------------------------------------------------------- orders and marks

  /** Rows precede their messages in TypeScript and Java only; every row has its message, or the call
      that may still produce it, in Rust only. */
  lemma ServiceOrders(d: Dialect)
    ensures (forall run :: EveryMessageHasARow(Exec(ConfigOf(d), START, run))) <==> d.TypeScript? || d.Java?
    ensures (forall run :: EveryRowIsDue(Exec(ConfigOf(d), START, run))) <==> d.Rust?
  {
    RowsPrecedeMessagesIff(ConfigOf(d));
    RowsHaveMessagesIff(ConfigOf(d));
  }

  /** Every service but Rust attempts a message before moving past it; TypeScript and Go attempt every
      recipient of every channel with an adapter. */
  lemma ServicePromises(d: Dialect)
    ensures (forall run :: AtLeastOnce(ConfigOf(d), Exec(ConfigOf(d), START, run))) <==> !d.Rust?
    ensures (forall run :: EveryoneAttempted(ConfigOf(d), Exec(ConfigOf(d), START, run))) <==> d.TypeScript? || d.Go?
  {
    ServiceChannels(d, "email");
    assert Upper("email") == "EMAIL";
    assert ConfigOf(d).sup("email");
    AtLeastOnceConfigurations(ConfigOf(d));
    EveryoneConfigurations(ConfigOf(d));
  }

  // ---------------------------------------------------------------- statuses

  /** In every state a service can reach, every row is as created, or its status is what that service
      reads off the row's own channels, however updates overlapped. */
  lemma ServiceStatuses(d: Dialect, run: seq<Action>)
    ensures RowsRead(d, Exec(ConfigOf(d), START, run).store.rows)
  {
    var s := Exec(ConfigOf(d), START, run);
    SystemRefinesSplitUpdates(ConfigOf(d), run);
    forall id | id in s.store.rows ensures RowRead(d, s.store.rows[id]) {
      assert Fits(AggBy(d), s.store, id, s.store.rows[id]);
      AggregateReads(d, s.store.rows[id].channels);
    }
  }

  predicate RowRead(d: Dialect, r: Row) {
    Fresh(r) || StatusReads(d, r)
  }

  predicate RowsRead(d: Dialect, rows: map<Id, Row>) {
    forall id :: id in rows ==> RowRead(d, rows[id])
  }

  /** A webhook's report of a status, in the service's own reading. */
  lemma ServiceReports(d: Dialect, s: State, who: nat, u: Update)
    requires who + 1 !in s.store.pending && u.id in s.store.rows
    ensures var t := Step(ConfigOf(d), s, Hook(who, u));
            && u.id in t.store.rows
            && t.store.rows[u.id].channels == s.store.rows[u.id].channels[u.channel := u.status]
            && StatusReads(d, t.store.rows[u.id])
  {
    AggregateReads(d, s.store.rows[u.id].channels[u.channel := u.status]);
  }

  lemma HookTouches(cfg: Config, s: State, who: nat, u: Update)
    requires who + 1 !in s.store.pending && u.id in s.store.rows
    ensures var rows := Step(cfg, s, Hook(who, u)).store.rows;
            u.id in rows && rows[u.id] == Touch(cfg.agg, s.store.rows[u.id], u.channel, u.status)
  {
  }

  /** The status of the row after a report, or nothing without a row. */
  function AfterReport(d: Dialect, s: State, who: nat, u: Update): Option<string> {
    var rows := Step(ConfigOf(d), s, Hook(who, u)).store.rows;
    if u.id in rows then Some(rows[u.id].status) else None
  }

  /** On a row with one channel, word by word: "completed" in small letters completes it in Go and
      Java only. */
  lemma ServiceReportsOnOneChannel(d: Dialect, s: State, who: nat, id: Id, c: string)
    requires who + 1 !in s.store.pending && id in s.store.rows && s.store.rows[id].channels.Keys == {c}
    ensures AfterReport(d, s, who, Update(id, c, "COMPLETED")) == Some("COMPLETED")
    ensures AfterReport(d, s, who, Update(id, c, "FAILED")) == Some("PARTIAL_FAILURE")
    ensures AfterReport(d, s, who, Update(id, c, "PROCESSING")) == Some("PROCESSING")
    ensures AfterReport(d, s, who, Update(id, c, "completed")) == Some("COMPLETED") <==> d.Go? || d.Java?
  {
    hide AfterReport, Touch, AggBy;
    SingleChannel(d, s.store.rows[id], c);
    ReportTouches(d, s, who, id, c, "COMPLETED");
    ReportTouches(d, s, who, id, c, "FAILED");
    ReportTouches(d, s, who, id, c, "PROCESSING");
    ReportTouches(d, s, who, id, c, "completed");
  }

  lemma ReportTouches(d: Dialect, s: State, who: nat, id: Id, c: string, word: string)
    requires who + 1 !in s.store.pending && id in s.store.rows
    ensures AfterReport(d, s, who, Update(id, c, word)) == Some(Touch(AggBy(d), s.store.rows[id], c, word).status)
  {
    HookTouches(ConfigOf(d), s, who, Update(id, c, word));
  }

  // ---------------------------------------------------------------- the machine and the worker loop

  /** The sends on record for one channel position, in recipient order. */
  function ChannelOnRecord(off: nat, req: Request, made: set<Attempt>, ci: nat, n: nat): seq<Send>
    requires ci < |req.channels| && n <= |req.recipients|
  {
    if n == 0 then []
    else
      var before := ChannelOnRecord(off, req, made, ci, n - 1);
      if Attempt(off, ci, n - 1, true) in made then before + [Send(req.channels[ci], req.recipients[n - 1], true)]
      else if Attempt(off, ci, n - 1, false) in made then before + [Send(req.channels[ci], req.recipients[n - 1], false)]
      else before
  }

  /** The sends on record for a message, channel by channel. */
  function OnRecord(off: nat, req: Request, made: set<Attempt>, n: nat): seq<Send>
    requires n <= |req.channels|
  {
    if n == 0 then []
    else OnRecord(off, req, made, n - 1) + ChannelOnRecord(off, req, made, n - 1, |req.recipients|)
  }

  lemma {:induction false} MadeIff(cfg: Config, off: nat, req: Request, o: Oracle, n: nat, a: Attempt)
    requires n <= |req.channels|
    ensures a in AttemptsOf(cfg, off, req, o, n) <==>
            && a.off == off && a.ci < n && cfg.sup(req.channels[a.ci])
            && a.ri < Attempted(cfg.shape, o, a.ci, |req.recipients|) && a.ok == o(a.ci, a.ri)
  {
    if n > 0 {
      MadeIff(cfg, off, req, o, n - 1, a);
    }
  }

  lemma {:induction false} ChannelReadsBack(cfg: Config, off: nat, req: Request, o: Oracle, ci: nat, n: nat)
    requires ci < |req.channels| && n <= |req.recipients|
    ensures var k := Attempted(cfg.shape, o, ci, |req.recipients|);
            ChannelOnRecord(off, req, AttemptsOf(cfg, off, req, o, |req.channels|), ci, n) ==
            if cfg.sup(req.channels[ci]) then SendsTo(req, o, ci, if n <= k then n else k) else []
  {
    if n > 0 {
      ChannelReadsBack(cfg, off, req, o, ci, n - 1);
      MadeIff(cfg, off, req, o, |req.channels|, Attempt(off, ci, n - 1, true));
      MadeIff(cfg, off, req, o, |req.channels|, Attempt(off, ci, n - 1, false));
    }
  }

  /** The machine's record of an undisturbed delivery, read in order, is the sends of a loop of its
      shape. */
  lemma {:induction false} RecordReadsBack(cfg: Config, off: nat, req: Request, o: Oracle, n: nat)
    requires n <= |req.channels|
    ensures OnRecord(off, req, AttemptsOf(cfg, off, req, o, |req.channels|), n) == Sends(cfg.shape, cfg.sup, req, o, n)
  {
    hide AttemptsOf, ChannelOnRecord;
    if n > 0 {
      RecordReadsBack(cfg, off, req, o, n - 1);
      ChannelReadsBack(cfg, off, req, o, n - 1, |req.recipients|);
    }
  }

  /** Aggregators that agree leave the same rows. */
  lemma {:induction false} SameAggregator(d: Dialect, agg: Aggregator, rows: map<Id, Row>, trace: seq<Update>)
    requires forall m {:trigger Agg(d, m)} :: agg(m) == Agg(d, m)
    ensures ApplyAll(agg, rows, trace) == ApplyAll(AggBy(d), rows, trace)
  {
    if trace != [] {
      var u := trace[|trace| - 1];
      SameAggregator(d, agg, rows, trace[..|trace| - 1]);
      var r := ApplyAll(AggBy(d), rows, trace[..|trace| - 1]);
      if u.id in r {
        assert agg(r[u.id].channels[u.channel := u.status]) == Agg(d, r[u.id].channels[u.channel := u.status]);
      }
    }
  }

  /** Each service's own loop on a message. */
  method Handle(w: Worker, id: Id, req: Request, o: Oracle)
    requires w.store.Valid() && w.adapters == AdaptersOf(w.store.dialect)
    modifies w`sends, w`updates, w.store
    ensures var cfg := ConfigOf(w.store.dialect);
            w.Trace() == Handled(w.store.agg, old(w.Trace()), cfg.shape, cfg.sup, id, req, o, |req.channels|)
  {
    match w.store.dialect {
      case TypeScript => w.HandleTypeScript(id, req, o);
      case Rust => w.HandleRust(id, req, o);
      case Go => w.HandleGo(id, req, o);
      case Java => w.HandleJava(id, req, o);
    }
  }

  /** A machine about to take up the message the worker loop gets, over the same rows. */
  predicate SameStart(s: State, rows: map<Id, Row>, id: Id, req: Request) {
    && s.next < |s.log| && s.log[s.next] == Msg(id, req)
    && s.consumer.Idle? && WORKER !in s.store.pending
    && s.store.rows == rows
  }

  /** Loop and machine agree, service by service: left alone on a message, the machine of the service's
      configuration ends in the rows its own loop leaves, journals the updates the loop issued, and has
      on record exactly the sends the loop made, in order. */
  method HandleLikeTheMachine(w: Worker, id: Id, req: Request, o: Oracle, ghost s: State)
    returns (ghost issued: seq<Update>, ghost made: set<Attempt>)
    requires w.store.Valid() && w.adapters == AdaptersOf(w.store.dialect)
    requires SameStart(s, w.store.rows, id, req)
    modifies w`sends, w`updates, w.store
    ensures var cfg := ConfigOf(w.store.dialect);
            var t := Exec(cfg, s, Delivery(cfg, o, s, req));
            && t.next == s.next + 1 && t.consumer.Idle?
            && t.store.rows == w.store.rows
            && t.store.journal == s.store.journal + (if id in old(w.store.rows) then issued else [])
            && t.attempts == s.attempts + made
    ensures w.updates == old(w.updates) + issued
    ensures w.sends == old(w.sends) + OnRecord(s.next, req, made, |req.channels|)
  {
    ghost var cfg := ConfigOf(w.store.dialect);
    issued := AllUpdates(cfg.sup, id, req, o);
    made := AttemptsOf(cfg, s.next, req, o, |req.channels|);
    DeliveryRuns(cfg, o, s, id, req);
    RecordReadsBack(cfg, s.next, req, o, |req.channels|);
    SameAggregator(w.store.dialect, w.store.agg, w.store.rows, issued);
    Handle(w, id, req, o);
  }
}
