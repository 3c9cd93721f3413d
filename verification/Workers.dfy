/** The four workers as loops over a status service, proved against the functions of Deliveries. */
module Workers {
  import opened Statuses
  import opened Traces
  import opened Deliveries
  import opened StatusServices

  /** Updates of the first n entries of a claim, delivery k having outcomes os(k). */
  function ClaimUpdates(sup: Table, log: seq<Entry>, os: nat -> Oracle, n: nat): seq<Update>
    requires n <= |log|
  {
    if n == 0 then []
    else
      var e := log[n - 1];
      ClaimUpdates(sup, log, os, n - 1) + (if e.Msg? then AllUpdates(sup, e.id, e.req, os(n - 1)) else [])
  }

  function ClaimSends(sup: Table, log: seq<Entry>, os: nat -> Oracle, n: nat): seq<Send>
    requires n <= |log|
  {
    if n == 0 then []
    else
      var e := log[n - 1];
      ClaimSends(sup, log, os, n - 1) +
      (if e.Msg? then Sends(KeepGoing, sup, e.req, os(n - 1), |e.req.channels|) else [])
  }

  /** How many updates and sends stood behind an entry when it was marked. */
  datatype Mark = Mark(updates: nat, sends: nat)

  /** Marking after the work: each entry is marked when its own updates and sends are all made. */
  function ClaimMarks(sup: Table, log: seq<Entry>, os: nat -> Oracle, n: nat, updates: nat, sends: nat): seq<Mark>
    requires n <= |log|
  {
    if n == 0 then []
    else ClaimMarks(sup, log, os, n - 1, updates, sends) +
         [Mark(updates + |ClaimUpdates(sup, log, os, n)|, sends + |ClaimSends(sup, log, os, n)|)]
  }

  /** What a worker has done so far: the rows it left, the updates it issued, the sends it tried. */
  datatype Trail = Trail(rows: map<Id, Row>, updates: seq<Update>, sends: seq<Send>)

  function Extend(agg: Aggregator, t: Trail, us: seq<Update>, ss: seq<Send>): Trail {
    Trail(ApplyAll(agg, t.rows, us), t.updates + us, t.sends + ss)
  }

  lemma ExtendTwice(agg: Aggregator, t: Trail, us: seq<Update>, ss: seq<Send>, vs: seq<Update>, rs: seq<Send>)
    ensures Extend(agg, Extend(agg, t, us, ss), vs, rs) == Extend(agg, t, us + vs, ss + rs)
  {
    ApplyAllAppend(agg, t.rows, us, vs);
    assert t.updates + us + vs == t.updates + (us + vs);
    assert t.sends + ss + rs == t.sends + (ss + rs);
  }

  /** PROCESSING, then some sends, then the outcome. */
  lemma ExtendChannel(agg: Aggregator, t: Trail, u: Update, ss: seq<Send>, v: Update)
    ensures Extend(agg, Extend(agg, Extend(agg, t, [u], []), [], ss), [v], []) == Extend(agg, t, [u, v], ss)
    ensures Extend(agg, Extend(agg, t, [u], []), [v], []) == Extend(agg, t, [u, v], [])
  {
    ExtendTwice(agg, t, [u], [], [], ss);
    assert [u] + [] == [u] && [] + ss == ss;
    ExtendTwice(agg, t, [u], ss, [v], []);
    ExtendTwice(agg, t, [u], [], [v], []);
    assert [u] + [v] == [u, v] && ss + [] == ss;
  }

  /** What a worker of the given shape does with the first n entries of the channel list. */
  function Handled(agg: Aggregator, t: Trail, shape: Shape, sup: Table, id: Id, req: Request, o: Oracle, n: nat): Trail
    requires n <= |req.channels|
  {
    Extend(agg, t, Updates(sup, id, req, o, n), Sends(shape, sup, req, o, n))
  }

  lemma HandledNone(agg: Aggregator, t: Trail, shape: Shape, sup: Table, id: Id, req: Request, o: Oracle)
    ensures Handled(agg, t, shape, sup, id, req, o, 0) == t
  {
    assert t.updates + [] == t.updates && t.sends + [] == t.sends;
  }

  /** PROCESSING, the sends if there is an adapter, and the outcome handle one more entry. */
  lemma HandledNext(agg: Aggregator, t: Trail, shape: Shape, sup: Table, id: Id, req: Request, o: Oracle, i: nat)
    requires i < |req.channels|
    ensures var c := req.channels[i];
            var t1 := Extend(agg, Handled(agg, t, shape, sup, id, req, o, i), [Update(id, c, PROCESSING)], []);
            var t2 := Extend(agg, t1, [], SendsTo(req, o, i, Attempted(shape, o, i, |req.recipients|)));
            var done := Handled(agg, t, shape, sup, id, req, o, i + 1);
            && (!sup(c) ==> Extend(agg, t1, [Update(id, c, FAILED)], []) == done)
            && (sup(c) && AllSent(o, i, |req.recipients|) ==> Extend(agg, t2, [Update(id, c, COMPLETED)], []) == done)
            && (sup(c) && !AllSent(o, i, |req.recipients|) ==> Extend(agg, t2, [Update(id, c, FAILED)], []) == done)
  {
    var u := Update(id, req.channels[i], PROCESSING);
    var v := Update(id, req.channels[i], Outcome(sup, req, o, i));
    var ss := ChannelSends(shape, sup, req, o, i);
    ExtendTwice(agg, t, Updates(sup, id, req, o, i), Sends(shape, sup, req, o, i), [u, v], ss);
    ExtendChannel(agg, Handled(agg, t, shape, sup, id, req, o, i), u, ss, v);
  }

  class Worker {
    const store: StatusService
    const adapters: seq<Adapter>
    var sends: seq<Send>       // every send attempted, in order
    var updates: seq<Update>   // every status update issued, in order
    var marked: nat            // log entries marked as consumed
    ghost var marks: seq<Mark> // what had been done when each of them was marked

    constructor (s: StatusService, a: seq<Adapter>)
      ensures store == s && adapters == a && sends == [] && updates == [] && marked == 0 && marks == []
    {
      store, adapters := s, a;
      sends, updates, marked, marks := [], [], 0, [];
    }

    ghost function Trace(): Trail
      reads this, store
    {
      Trail(store.rows, updates, sends)
    }

    /** The first adapter that supports the channel. */
    method GetAdapter(channel: string) returns (a: Option<Adapter>)
      ensures a.Some? <==> TableOf(adapters)(channel)
      ensures a.None? <==> forall i :: 0 <= i < |adapters| ==> !adapters[i](channel)
      ensures a.Some? ==> exists i :: 0 <= i < |adapters| && a.value == adapters[i] && adapters[i](channel) &&
                            forall j :: 0 <= j < i ==> !adapters[j](channel)
    {
      for i := 0 to |adapters|
        invariant forall j :: 0 <= j < i ==> !adapters[j](channel)
      {
        if adapters[i](channel) {
          return Some(adapters[i]);
        }
      }
      a := None;
    }

    method Issue(id: Id, channel: string, status: string)
      requires store.Valid()
      modifies this`updates, store
      ensures Trace() == Extend(store.agg, old(Trace()), [Update(id, channel, status)], [])
    {
      var found := store.UpdateChannelStatus(id, channel, status);
      updates := updates + [Update(id, channel, status)];
      ApplyAllSnoc(store.agg, old(store.rows), [], Update(id, channel, status));
      assert [] + [Update(id, channel, status)] == [Update(id, channel, status)];
    }

    /** Go, TypeScript, Rust: a failed send clears the flag and the loop goes on. */
    method SendToAll(req: Request, i: nat, o: Oracle) returns (success: bool)
      requires i < |req.channels|
      modifies this`sends
      ensures success <==> AllSent(o, i, |req.recipients|)
      ensures Trace() == Extend(store.agg, old(Trace()), [], SendsTo(req, o, i, |req.recipients|))
    {
      success := true;
      for j := 0 to |req.recipients|
        invariant success <==> AllSent(o, i, j)
        invariant sends == old(sends) + SendsTo(req, o, i, j)
      {
        sends := sends + [Send(req.channels[i], req.recipients[j], o(i, j))];
        if !o(i, j) {
          success := false;
        }
      }
    }

    /** Java: the first failing send throws out of the loop. */
    method SendUntilFailure(req: Request, i: nat, o: Oracle) returns (threw: bool)
      requires i < |req.channels|
      modifies this`sends
      ensures threw <==> !AllSent(o, i, |req.recipients|)
      ensures Trace() == Extend(store.agg, old(Trace()), [],
                                SendsTo(req, o, i, Attempted(FailFast, o, i, |req.recipients|)))
    {
      FailFastStopsAtFirstFailure(o, i, |req.recipients|);
      for j := 0 to |req.recipients|
        invariant AllSent(o, i, j)
        invariant sends == old(sends) + SendsTo(req, o, i, j)
      {
        sends := sends + [Send(req.channels[i], req.recipients[j], o(i, j))];
        if !o(i, j) {
          assert Attempted(FailFast, o, i, |req.recipients|) == j + 1;
          return true;
        }
      }
      threw := false;
    }

    /** TypeScript: nested try/catch; an unsupported channel throws into the outer catch. */
    method HandleTypeScript(id: Id, req: Request, o: Oracle)
      requires store.Valid()
      modifies this`sends, this`updates, store
      ensures Trace() == Handled(store.agg, old(Trace()), KeepGoing, TableOf(adapters), id, req, o, |req.channels|)
    {
      hide Extend, Handled;
      ghost var agg, sup := store.agg, TableOf(adapters);
      HandledNone(agg, Trace(), KeepGoing, sup, id, req, o);
      for i := 0 to |req.channels|
        invariant Trace() == Handled(agg, old(Trace()), KeepGoing, sup, id, req, o, i)
      {
        HandledNext(agg, old(Trace()), KeepGoing, sup, id, req, o, i);
        Issue(id, req.channels[i], PROCESSING);
        var adapter := GetAdapter(req.channels[i]);
        var caught := adapter.None?;
        if !caught {
          var success := SendToAll(req, i, o);
          if success {
            Issue(id, req.channels[i], COMPLETED);
          } else {
            Issue(id, req.channels[i], FAILED);
          }
        }
        if caught {
          Issue(id, req.channels[i], FAILED);
        }
      }
    }

    /** Rust: the adapter lookup is an Option, matched after the first update. */
    method HandleRust(id: Id, req: Request, o: Oracle)
      requires store.Valid()
      modifies this`sends, this`updates, store
      ensures Trace() == Handled(store.agg, old(Trace()), KeepGoing, TableOf(adapters), id, req, o, |req.channels|)
    {
      hide Extend, Handled;
      ghost var agg, sup := store.agg, TableOf(adapters);
      HandledNone(agg, Trace(), KeepGoing, sup, id, req, o);
      for i := 0 to |req.channels|
        invariant Trace() == Handled(agg, old(Trace()), KeepGoing, sup, id, req, o, i)
      {
        HandledNext(agg, old(Trace()), KeepGoing, sup, id, req, o, i);
        Issue(id, req.channels[i], PROCESSING);
        var adapter := GetAdapter(req.channels[i]);
        match adapter {
          case Some(_) =>
            var success := SendToAll(req, i, o);
            Issue(id, req.channels[i], if success then COMPLETED else FAILED);
          case None =>
            Issue(id, req.channels[i], FAILED);
        }
      }
    }

    /** Java: the first exception, from the lookup or from a send, ends the channel as FAILED. */
    method HandleJava(id: Id, req: Request, o: Oracle)
      requires store.Valid()
      modifies this`sends, this`updates, store
      ensures Trace() == Handled(store.agg, old(Trace()), FailFast, TableOf(adapters), id, req, o, |req.channels|)
    {
      hide Extend, Handled;
      ghost var agg, sup := store.agg, TableOf(adapters);
      HandledNone(agg, Trace(), FailFast, sup, id, req, o);
      for i := 0 to |req.channels|
        invariant Trace() == Handled(agg, old(Trace()), FailFast, sup, id, req, o, i)
      {
        HandledNext(agg, old(Trace()), FailFast, sup, id, req, o, i);
        Issue(id, req.channels[i], PROCESSING);
        var adapter := GetAdapter(req.channels[i]);
        var threw := adapter.None?;
        if !threw {
          threw := SendUntilFailure(req, i, o);
        }
        Issue(id, req.channels[i], if threw then FAILED else COMPLETED);
      }
    }

    /** Go: a missing adapter is a `continue`. */
    method HandleGo(id: Id, req: Request, o: Oracle)
      requires store.Valid()
      modifies this`sends, this`updates, store
      ensures Trace() == Handled(store.agg, old(Trace()), KeepGoing, TableOf(adapters), id, req, o, |req.channels|)
    {
      hide Extend, Handled;
      ghost var agg, sup := store.agg, TableOf(adapters);
      HandledNone(agg, Trace(), KeepGoing, sup, id, req, o);
      for i := 0 to |req.channels|
        invariant Trace() == Handled(agg, old(Trace()), KeepGoing, sup, id, req, o, i)
      {
        HandledNext(agg, old(Trace()), KeepGoing, sup, id, req, o, i);
        Issue(id, req.channels[i], PROCESSING);
        var adapter := GetAdapter(req.channels[i]);
        if adapter.None? {
          Issue(id, req.channels[i], FAILED);
          continue;
        }
        var success := SendToAll(req, i, o);
        if success {
          Issue(id, req.channels[i], COMPLETED);
        } else {
          Issue(id, req.channels[i], FAILED);
        }
      }
    }

    /** Go's claim loop: bad messages are skipped and marked, others marked after processing. */
    method ConsumeClaim(log: seq<Entry>, os: nat -> Oracle)
      requires store.Valid()
      modifies this, store
      ensures marked == old(marked) + |log|
      ensures marks == old(marks) + ClaimMarks(TableOf(adapters), log, os, |log|, |old(updates)|, |old(sends)|)
      ensures Trace() == Extend(store.agg, old(Trace()), ClaimUpdates(TableOf(adapters), log, os, |log|),
                                ClaimSends(TableOf(adapters), log, os, |log|))
    {
      hide Extend, Handled, ClaimUpdates, ClaimSends, ClaimMarks;
      ghost var agg, sup := store.agg, TableOf(adapters);
      ClaimNone(agg, Trace(), sup, log, os);
      for k := 0 to |log|
        invariant marked == old(marked) + k
        invariant marks == old(marks) + ClaimMarks(sup, log, os, k, |old(updates)|, |old(sends)|)
        invariant Trace() == Extend(agg, old(Trace()), ClaimUpdates(sup, log, os, k), ClaimSends(sup, log, os, k))
      {
        var e := log[k];
        if e.Poison? {
          ClaimNext(agg, old(Trace()), sup, log, os, k);
          MarkNext(agg, old(Trace()), Trace(), sup, log, os, k);
          marked, marks := marked + 1, marks + [Mark(|updates|, |sends|)];
          continue;
        }
        ClaimNext(agg, old(Trace()), sup, log, os, k);
        HandleGo(e.id, e.req, os(k));
        MarkNext(agg, old(Trace()), Trace(), sup, log, os, k);
        marked, marks := marked + 1, marks + [Mark(|updates|, |sends|)];
      }
    }
  }

  lemma ClaimNone(agg: Aggregator, t: Trail, sup: Table, log: seq<Entry>, os: nat -> Oracle)
    ensures Extend(agg, t, ClaimUpdates(sup, log, os, 0), ClaimSends(sup, log, os, 0)) == t
    ensures forall u, v :: ClaimMarks(sup, log, os, 0, u, v) == []
  {
    assert t.updates + [] == t.updates && t.sends + [] == t.sends;
  }

  lemma MarkNext(agg: Aggregator, t: Trail, t': Trail, sup: Table, log: seq<Entry>, os: nat -> Oracle, k: nat)
    requires k < |log| && t' == Extend(agg, t, ClaimUpdates(sup, log, os, k + 1), ClaimSends(sup, log, os, k + 1))
    ensures ClaimMarks(sup, log, os, k + 1, |t.updates|, |t.sends|) ==
            ClaimMarks(sup, log, os, k, |t.updates|, |t.sends|) + [Mark(|t'.updates|, |t'.sends|)]
  {
  }

  lemma ClaimNext(agg: Aggregator, t: Trail, sup: Table, log: seq<Entry>, os: nat -> Oracle, k: nat)
    requires k < |log|
    ensures var t' := Extend(agg, t, ClaimUpdates(sup, log, os, k), ClaimSends(sup, log, os, k));
            Extend(agg, t, ClaimUpdates(sup, log, os, k + 1), ClaimSends(sup, log, os, k + 1)) ==
            match log[k]
            case Poison => t'
            case Msg(id, req) => Handled(agg, t', KeepGoing, sup, id, req, os(k), |req.channels|)
  {
    var us, ss := ClaimUpdates(sup, log, os, k), ClaimSends(sup, log, os, k);
    match log[k] {
      case Poison =>
        assert us + [] == us && ss + [] == ss;
      case Msg(id, req) =>
        ExtendTwice(agg, t, us, ss, AllUpdates(sup, id, req, os(k)), Sends(KeepGoing, sup, req, os(k), |req.channels|));
    }
  }
}
