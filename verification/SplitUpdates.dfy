/** Status updates as Rust and Go perform them: read the row, later write the whole row back, with
    no transaction around the two. Any number of updaters interleave and may lose each other's
    writes. */
module SplitUpdates {
  import opened Statuses
  import opened Traces

  /** An updater between its read and its write, holding the row as it read it. */
  datatype Pending = Pending(u: Update, snap: Row)

  /** The table, the updaters in flight, and two histories: the channels each row was created with
      and the updates written back, in write order. */
  datatype Store = Store(rows: map<Id, Row>, pending: map<nat, Pending>,
                         births: map<Id, set<string>>, journal: seq<Update>)

  const EMPTY := Store(map[], map[], map[], [])

  function Create(s: Store, id: Id, channels: set<string>): Store {
    if id in s.rows then s
    else s.(rows := s.rows[id := Initial(channels)], births := s.births[id := channels])
  }

  /** The read. A missing row ends the update; an updater has one update in flight at a time. */
  function Begin(s: Store, who: nat, u: Update): Store {
    if who in s.pending || u.id !in s.rows then s
    else s.(pending := s.pending[who := Pending(u, s.rows[u.id])])
  }

  /** The write of the whole row computed from the snapshot. */
  function Finish(agg: Aggregator, s: Store, who: nat): Store {
    if who !in s.pending then s
    else
      var p := s.pending[who];
      s.(rows := s.rows[p.u.id := Touch(agg, p.snap, p.u.channel, p.u.status)],
         pending := s.pending - {who},
         journal := s.journal + [p.u])
  }

  /** The updater dies before its write. */
  function Abandon(s: Store, who: nat): Store {
    s.(pending := s.pending - {who})
  }

  datatype StoreStep = DoCreate(id: Id, channels: set<string>) | DoBegin(who: nat, u: Update) | DoFinish(who: nat) | DoAbandon(who: nat)

  function Next(agg: Aggregator, s: Store, step: StoreStep): Store {
    match step
    case DoCreate(id, channels) => Create(s, id, channels)
    case DoBegin(who, u) => Begin(s, who, u)
    case DoFinish(who) => Finish(agg, s, who)
    case DoAbandon(who) => Abandon(s, who)
  }

  function Run(agg: Aggregator, s: Store, steps: seq<StoreStep>): Store {
    if steps == [] then s else Next(agg, Run(agg, s, steps[..|steps| - 1]), steps[|steps| - 1])
  }

  lemma {:induction false} RunAppend(agg: Aggregator, s: Store, a: seq<StoreStep>, b: seq<StoreStep>)
    ensures Run(agg, s, a + b) == Run(agg, Run(agg, s, a), b)
  {
    if b == [] {
      assert a + b == a;
    } else {
      RunAppend(agg, s, a, b[..|b| - 1]);
      assert (a + b)[..|a + b| - 1] == a + b[..|b| - 1];
    }
  }

  // ---------------------------------------------------------------- what every interleaving keeps

  /** A row, or a snapshot of it: its creation channels are all there, every value is the initial
      one or was written by an update of that very channel, and the status is never stale. */
  ghost predicate Fits(agg: Aggregator, s: Store, id: Id, r: Row) {
    && id in s.births
    && s.births[id] <= r.channels.Keys
    && (r == Initial(s.births[id]) || r.status == agg(r.channels))
    && (forall c :: c in r.channels ==>
          (c in s.births[id] && r.channels[c] == PENDING) || Update(id, c, r.channels[c]) in s.journal)
  }

  ghost predicate Consistent(agg: Aggregator, s: Store) {
    && s.births.Keys == s.rows.Keys
    && (forall id :: id in s.rows ==> Fits(agg, s, id, s.rows[id]))
    && (forall id :: id in s.rows ==>
          if Hits(s.journal, id) then s.rows[id].status == agg(s.rows[id].channels)
          else s.rows[id] == Initial(s.births[id]))
    && (forall u :: u in s.journal ==> u.id in s.rows)
    && (forall who :: who in s.pending ==> Fits(agg, s, s.pending[who].u.id, s.pending[who].snap))
  }

  lemma FitsStays(agg: Aggregator, s: Store, t: Store, id: Id, r: Row)
    requires Fits(agg, s, id, r)
    requires id in t.births && t.births[id] == s.births[id]
    requires s.journal <= t.journal
    ensures Fits(agg, t, id, r)
  {
  }

  lemma FitsInitially(agg: Aggregator, s: Store, id: Id)
    requires id in s.births
    ensures Fits(agg, s, id, Initial(s.births[id]))
  {
  }

  lemma CreateKeeps(agg: Aggregator, s: Store, id: Id, channels: set<string>)
    requires Consistent(agg, s)
    ensures Consistent(agg, Create(s, id, channels))
  {
    if id !in s.rows {
      var t := Create(s, id, channels);
      FitsInitially(agg, t, id);
      forall k | k in s.rows ensures Fits(agg, t, k, s.rows[k]) {
        FitsStays(agg, s, t, k, s.rows[k]);
      }
      forall who | who in s.pending ensures Fits(agg, t, s.pending[who].u.id, s.pending[who].snap) {
        FitsStays(agg, s, t, s.pending[who].u.id, s.pending[who].snap);
      }
    }
  }

  lemma BeginKeeps(agg: Aggregator, s: Store, who: nat, u: Update)
    requires Consistent(agg, s)
    ensures Consistent(agg, Begin(s, who, u))
  {
  }

  lemma AbandonKeeps(agg: Aggregator, s: Store, who: nat)
    requires Consistent(agg, s)
    ensures Consistent(agg, Abandon(s, who))
  {
  }

  lemma FinishKeeps(agg: Aggregator, s: Store, who: nat)
    requires Consistent(agg, s)
    ensures Consistent(agg, Finish(agg, s, who))
  {
    if who in s.pending {
      var t := Finish(agg, s, who);
      var p := s.pending[who];
      assert s.journal <= t.journal;
      FitsStays(agg, s, t, p.u.id, p.snap);
      assert t.journal[|s.journal|] == p.u;
      assert p.u in t.journal;
      assert Fits(agg, t, p.u.id, t.rows[p.u.id]);
      forall k | k in s.rows && k != p.u.id ensures Fits(agg, t, k, s.rows[k]) {
        FitsStays(agg, s, t, k, s.rows[k]);
      }
      forall w | w in t.pending ensures Fits(agg, t, s.pending[w].u.id, s.pending[w].snap) {
        FitsStays(agg, s, t, s.pending[w].u.id, s.pending[w].snap);
      }
      forall k ensures Hits(t.journal, k) <==> Hits(s.journal, k) || k == p.u.id {
        WrittenSnoc(s.journal, p.u, k);
      }
    }
  }

  /** Every interleaving of any number of updaters, with updaters dying anywhere, keeps every row
      either untouched or consistent with its own channel map, even when updates are lost; no
      creation channel disappears and no value appears that nobody wrote there. */
  lemma {:induction false} InterleavingsStayConsistent(agg: Aggregator, steps: seq<StoreStep>)
    ensures Consistent(agg, Run(agg, EMPTY, steps))
  {
    if steps != [] {
      var s := Run(agg, EMPTY, steps[..|steps| - 1]);
      InterleavingsStayConsistent(agg, steps[..|steps| - 1]);
      match steps[|steps| - 1] {
        case DoCreate(id, channels) => CreateKeeps(agg, s, id, channels);
        case DoBegin(who, u) => BeginKeeps(agg, s, who, u);
        case DoFinish(who) => FinishKeeps(agg, s, who);
        case DoAbandon(who) => AbandonKeeps(agg, s, who);
      }
    }
  }

  // ---------------------------------------------------------------- when nothing is lost

  /** A write loses nothing exactly when its snapshot still agrees with the row on every channel
      other than the one it writes. */
  lemma WriteIsAtomicIff(agg: Aggregator, s: Store, who: nat)
    requires who in s.pending && s.pending[who].u.id in s.rows
    ensures var p := s.pending[who];
            Finish(agg, s, who).rows == Apply(agg, s.rows, p.u) <==>
            p.snap.channels - {p.u.channel} == s.rows[p.u.id].channels - {p.u.channel}
  {
    var p := s.pending[who];
    var a, b := p.snap.channels, s.rows[p.u.id].channels;
    var c, v := p.u.channel, p.u.status;
    if Finish(agg, s, who).rows == Apply(agg, s.rows, p.u) {
      assert Finish(agg, s, who).rows[p.u.id] == Apply(agg, s.rows, p.u)[p.u.id];
      assert a[c := v] == b[c := v];
      assert a - {c} == a[c := v] - {c} && b - {c} == b[c := v] - {c};
    }
    if a - {c} == b - {c} {
      assert a[c := v] == (a - {c})[c := v] && b[c := v] == (b - {c})[c := v];
    }
  }

  /** The rows as created, before any update. */
  function BirthRows(births: map<Id, set<string>>): map<Id, Row> {
    map id | id in births :: Initial(births[id])
  }

  /** The rows are those of replaying the writes so far one by one from the created rows. */
  ghost predicate Replayed(agg: Aggregator, s: Store) {
    s.rows == ApplyAll(agg, BirthRows(s.births), s.journal)
  }

  ghost predicate AlwaysReplayed(agg: Aggregator, steps: seq<StoreStep>) {
    Replayed(agg, Run(agg, EMPTY, steps)) && (steps != [] ==> AlwaysReplayed(agg, steps[..|steps| - 1]))
  }

  /** A write from a snapshot that differs from the row on a channel other than the written one. */
  predicate StaleWrite(s: Store, step: StoreStep) {
    && step.DoFinish? && step.who in s.pending
    && var p := s.pending[step.who];
       p.u.id in s.rows && p.snap.channels - {p.u.channel} != s.rows[p.u.id].channels - {p.u.channel}
  }

  ghost predicate NoStaleWrite(agg: Aggregator, steps: seq<StoreStep>) {
    steps == [] ||
    (NoStaleWrite(agg, steps[..|steps| - 1]) && !StaleWrite(Run(agg, EMPTY, steps[..|steps| - 1]), steps[|steps| - 1]))
  }

  lemma StepReplayedIff(agg: Aggregator, s: Store, step: StoreStep)
    requires Consistent(agg, s) && Replayed(agg, s)
    ensures Replayed(agg, Next(agg, s, step)) <==> !StaleWrite(s, step)
  {
    match step {
      case DoCreate(id, channels) => CreateIsReplayed(agg, s, id, channels);
      case DoBegin(_, _) =>
      case DoFinish(who) =>
        if who in s.pending {
          assert Fits(agg, s, s.pending[who].u.id, s.pending[who].snap);
          WriteIsAtomicIff(agg, s, who);
          ApplyAllSnoc(agg, BirthRows(s.births), s.journal, s.pending[who].u);
        }
      case DoAbandon(_) =>
    }
  }

  lemma CreateIsReplayed(agg: Aggregator, s: Store, id: Id, channels: set<string>)
    requires Replayed(agg, s) && forall u :: u in s.journal ==> u.id in s.rows
    ensures Replayed(agg, Create(s, id, channels))
  {
    if id !in s.rows {
      var t := Create(s, id, channels);
      var before, after := BirthRows(s.births), BirthRows(t.births);
      assert after == before[id := Initial(channels)];
      forall u | u in s.journal ensures u.id != id {
      }
      ApplyAllFrame(agg, before, id, Initial(channels), s.journal);
    }
  }

  /** When two-step updates are as good as atomic, exactly: all along a run the rows are those of
      replaying the writes one by one if and only if no write used a snapshot that differed from the
      row on another channel. */
  lemma {:induction false} RunIsAtomicIff(agg: Aggregator, steps: seq<StoreStep>)
    ensures AlwaysReplayed(agg, steps) <==> NoStaleWrite(agg, steps)
  {
    if steps != [] {
      var steps' := steps[..|steps| - 1];
      RunIsAtomicIff(agg, steps');
      if AlwaysReplayed(agg, steps') {
        InterleavingsStayConsistent(agg, steps');
        StepReplayedIff(agg, Run(agg, EMPTY, steps'), steps[|steps| - 1]);
      }
    }
  }

  /** No read starts on a row that another updater has read and not yet written. */
  ghost predicate Exclusive(agg: Aggregator, s: Store, steps: seq<StoreStep>) {
    steps != [] ==>
      var t := Run(agg, s, steps[..|steps| - 1]);
      var step := steps[|steps| - 1];
      && Exclusive(agg, s, steps[..|steps| - 1])
      && (step.DoBegin? ==> forall who :: who in t.pending ==> t.pending[who].u.id != step.u.id)
  }

  ghost predicate Serial(agg: Aggregator, s: Store) {
    && Replayed(agg, s)
    && (forall who :: who in s.pending ==> s.pending[who].u.id in s.rows && s.pending[who].snap == s.rows[s.pending[who].u.id])
    && (forall v, w :: v in s.pending && w in s.pending && v != w ==> s.pending[v].u.id != s.pending[w].u.id)
  }

  /** When updaters of the same row do not overlap, the two-step updates are as good as atomic: the
      rows are those of replaying the written updates one by one from the created rows. */
  lemma {:induction false} ExclusiveRunsAreAtomic(agg: Aggregator, steps: seq<StoreStep>)
    requires Exclusive(agg, EMPTY, steps)
    ensures Serial(agg, Run(agg, EMPTY, steps))
  {
    if steps != [] {
      var steps' := steps[..|steps| - 1];
      var s := Run(agg, EMPTY, steps');
      ExclusiveRunsAreAtomic(agg, steps');
      InterleavingsStayConsistent(agg, steps');
      match steps[|steps| - 1] {
        case DoCreate(id, channels) => CreateIsSerial(agg, s, id, channels);
        case DoBegin(who, u) =>
        case DoFinish(who) => FinishIsSerial(agg, s, who);
        case DoAbandon(who) =>
      }
    }
  }

  lemma FinishIsSerial(agg: Aggregator, s: Store, who: nat)
    requires Serial(agg, s)
    ensures Serial(agg, Finish(agg, s, who))
  {
  }

  lemma CreateIsSerial(agg: Aggregator, s: Store, id: Id, channels: set<string>)
    requires Serial(agg, s) && forall u :: u in s.journal ==> u.id in s.rows
    ensures Serial(agg, Create(s, id, channels))
  {
    CreateIsReplayed(agg, s, id, channels);
  }

  /** A row no update of the trace is about rides along. */
  lemma {:induction false} ApplyAllFrame(agg: Aggregator, rows: map<Id, Row>, id: Id, r: Row, trace: seq<Update>)
    requires forall u :: u in trace ==> u.id != id
    ensures ApplyAll(agg, rows[id := r], trace) == ApplyAll(agg, rows, trace)[id := r]
  {
    if trace != [] {
      var u := trace[|trace| - 1];
      ApplyAllFrame(agg, rows, id, r, trace[..|trace| - 1]);
      assert u in trace;
    }
  }

  /** Two updaters that both read before either writes: the row ends exactly as if the first writer
      had never run. Nothing is lost only if both write the same channel, or the first one wrote
      the value that was there already. */
  lemma OverlapErasesFirstWriter(agg: Aggregator, s: Store, v: nat, w: nat, a: Update, b: Update)
    requires v !in s.pending && w !in s.pending && v != w
    requires a.id == b.id && a.id in s.rows
    ensures var t := Finish(agg, Finish(agg, Begin(Begin(s, v, a), w, b), v), w);
            var m := s.rows[a.id].channels;
            && t.journal == s.journal + [a, b]
            && t.rows == Apply(agg, s.rows, b)
            && (t.rows == Apply(agg, Apply(agg, s.rows, a), b) <==>
                a.channel == b.channel || (a.channel in m && m[a.channel] == a.status))
  {
    var t := Finish(agg, Finish(agg, Begin(Begin(s, v, a), w, b), v), w);
    var m := s.rows[a.id].channels;
    assert t.journal == s.journal + [a] + [b] == s.journal + [a, b];
    assert t.rows == Apply(agg, s.rows, b);
    var both := m[a.channel := a.status][b.channel := b.status];
    var one := m[b.channel := b.status];
    assert Apply(agg, Apply(agg, s.rows, a), b)[a.id].channels == both && t.rows[a.id].channels == one;
    if a.channel == b.channel || (a.channel in m && m[a.channel] == a.status) {
      assert both == one;
    } else {
      assert both[a.channel] == a.status;
      assert both != one;
    }
  }
}
