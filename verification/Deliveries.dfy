/** One delivery of one message by a worker: the status updates it emits and the sends it
    attempts, as functions of the request, the adapter table and the send outcomes. */
module Deliveries {
  import opened Statuses
  import opened Traces

  datatype Request = Request(channels: seq<string>, recipients: seq<string>, message: string)

  /** What a consumer finds in the log: a message keyed by its notification, or bytes that do not
      parse as a request. */
  datatype Entry = Poison | Msg(id: Id, req: Request)

  /** An adapter, reduced to the channels it supports. */
  type Adapter = string -> bool

  /** The adapters in the order the factory holds them. Java compares names ignoring case. */
  function AdaptersOf(d: Dialect): seq<Adapter> {
    [Named(d, "email"), Named(d, "sms"), Named(d, "push")]
  }

  function Named(d: Dialect, name: string): Adapter {
    c => if d.Java? then EqualBy(JavaFold, c, name) else c == name
  }

  /** Whether the send at channel position i to recipient position j succeeds, for one delivery. */
  type Oracle = (nat, nat) -> bool

  /** Whether a channel has an adapter. */
  type Table = string -> bool

  function TableOf(adapters: seq<Adapter>): Table {
    c => exists i :: 0 <= i < |adapters| && adapters[i](c)
  }

  predicate AllSent(o: Oracle, i: nat, n: nat) {
    forall j :: 0 <= j < n ==> o(i, j)
  }

  /** What the worker concludes about the i-th entry of the channel list. */
  function Outcome(sup: Table, req: Request, o: Oracle, i: nat): string
    requires i < |req.channels|
  {
    if sup(req.channels[i]) && AllSent(o, i, |req.recipients|) then COMPLETED else FAILED
  }

  /** The updates for the first n entries of the channel list. */
  function Updates(sup: Table, id: Id, req: Request, o: Oracle, n: nat): seq<Update>
    requires n <= |req.channels|
  {
    if n == 0 then []
    else Updates(sup, id, req, o, n - 1) + ChannelUpdates(sup, id, req, o, n - 1)
  }

  function ChannelUpdates(sup: Table, id: Id, req: Request, o: Oracle, i: nat): seq<Update>
    requires i < |req.channels|
  {
    [Update(id, req.channels[i], PROCESSING), Update(id, req.channels[i], Outcome(sup, req, o, i))]
  }

  function AllUpdates(sup: Table, id: Id, req: Request, o: Oracle): seq<Update> {
    Updates(sup, id, req, o, |req.channels|)
  }

  /** The k-th update of a delivery. */
  function UpdateAt(sup: Table, id: Id, req: Request, o: Oracle, k: nat): Update
    requires k / 2 < |req.channels|
  {
    Update(id, req.channels[k / 2], if k % 2 == 0 then PROCESSING else Outcome(sup, req, o, k / 2))
  }

  lemma {:induction false} UpdatesShape(sup: Table, id: Id, req: Request, o: Oracle, n: nat)
    requires n <= |req.channels|
    ensures |Updates(sup, id, req, o, n)| == 2 * n
    ensures forall k :: 0 <= k < 2 * n ==> Updates(sup, id, req, o, n)[k] == UpdateAt(sup, id, req, o, k)
  {
    if n > 0 {
      UpdatesShape(sup, id, req, o, n - 1);
      forall k | 0 <= k < 2 * n ensures Updates(sup, id, req, o, n)[k] == UpdateAt(sup, id, req, o, k) {
        ShapeNext(sup, id, req, o, n, k);
      }
    }
  }

  lemma ShapeNext(sup: Table, id: Id, req: Request, o: Oracle, n: nat, k: nat)
    requires 0 < n <= |req.channels| && k < 2 * n
    requires |Updates(sup, id, req, o, n - 1)| == 2 * (n - 1)
    requires k < 2 * (n - 1) ==> Updates(sup, id, req, o, n - 1)[k] == UpdateAt(sup, id, req, o, k)
    ensures Updates(sup, id, req, o, n)[k] == UpdateAt(sup, id, req, o, k)
  {
    hide Outcome;
    if k >= 2 * (n - 1) {
      PairAt(sup, id, req, o, n - 1);
      assert k == 2 * (n - 1) || k == 2 * (n - 1) + 1;
    }
  }

  lemma PairAt(sup: Table, id: Id, req: Request, o: Oracle, i: nat)
    requires i < |req.channels|
    ensures (2 * i) / 2 == i && (2 * i + 1) / 2 == i
    ensures UpdateAt(sup, id, req, o, 2 * i) == ChannelUpdates(sup, id, req, o, i)[0]
    ensures UpdateAt(sup, id, req, o, 2 * i + 1) == ChannelUpdates(sup, id, req, o, i)[1]
  {
  }

  // ---------------------------------------------------------------- sends

  datatype Send = Send(channel: string, recipient: string, ok: bool)

  /** A keep-going worker records a failed send and goes on; a fail-fast one leaves the recipient
      loop at the first failure. */
  datatype Shape = KeepGoing | FailFast

  /** How many of the first n recipients are attempted. */
  function Attempted(shape: Shape, o: Oracle, i: nat, n: nat): nat
    ensures Attempted(shape, o, i, n) <= n
  {
    if shape.KeepGoing? || n == 0 then n
    else
      var k := Attempted(shape, o, i, n - 1);
      if k < n - 1 || (k > 0 && !o(i, k - 1)) then k else n
  }

  function ChannelSends(shape: Shape, sup: Table, req: Request, o: Oracle, i: nat): seq<Send>
    requires i < |req.channels|
  {
    if sup(req.channels[i]) then SendsTo(req, o, i, Attempted(shape, o, i, |req.recipients|)) else []
  }

  function SendsTo(req: Request, o: Oracle, i: nat, n: nat): seq<Send>
    requires i < |req.channels| && n <= |req.recipients|
  {
    seq(n, j requires 0 <= j < n => Send(req.channels[i], req.recipients[j], o(i, j)))
  }

  function Sends(shape: Shape, sup: Table, req: Request, o: Oracle, n: nat): seq<Send>
    requires n <= |req.channels|
  {
    if n == 0 then [] else Sends(shape, sup, req, o, n - 1) + ChannelSends(shape, sup, req, o, n - 1)
  }

  /** The fail-fast count is the prefix up to and including the first failure, and nothing else. */
  lemma {:induction false} FailFastStopsAtFirstFailure(o: Oracle, i: nat, n: nat)
    ensures var k := Attempted(FailFast, o, i, n);
            && (forall j: nat :: j + 1 < k ==> o(i, j))
            && (k < n ==> k > 0 && !o(i, k - 1))
            && (AllSent(o, i, n) <==> k == n && (n > 0 ==> o(i, n - 1)))
  {
    if n > 0 {
      FailFastStopsAtFirstFailure(o, i, n - 1);
    }
  }

  /** Same oracle, same table: the fail-fast worker attempts a prefix of what a keep-going worker
      attempts on each channel, and both attempt the same exactly when no send before the last
      recipient fails. The updates do not mention the shape at all. */
  lemma FailFastSendsPrefix(sup: Table, req: Request, o: Oracle, i: nat)
    requires i < |req.channels|
    ensures ChannelSends(FailFast, sup, req, o, i) <= ChannelSends(KeepGoing, sup, req, o, i)
    ensures ChannelSends(FailFast, sup, req, o, i) == ChannelSends(KeepGoing, sup, req, o, i) <==>
            sup(req.channels[i]) ==> forall j: nat :: j + 1 < |req.recipients| ==> o(i, j)
  {
    var n := |req.recipients|;
    var k := Attempted(FailFast, o, i, n);
    FailFastStopsAtFirstFailure(o, i, n);
    if sup(req.channels[i]) {
      assert SendsTo(req, o, i, k) == SendsTo(req, o, i, n)[..k];
      if k < n {
        assert k - 1 + 1 < n && !o(i, k - 1);
        assert |SendsTo(req, o, i, k)| != |SendsTo(req, o, i, n)|;
      }
    }
  }

  /** The sends due for the first n entries: all recipients for every entry with an adapter. */
  function SendsDue(sup: Table, req: Request, n: nat): nat
    requires n <= |req.channels|
  {
    if n == 0 then 0 else SendsDue(sup, req, n - 1) + if sup(req.channels[n - 1]) then |req.recipients| else 0
  }

  lemma {:induction false} KeepGoingLength(sup: Table, req: Request, o: Oracle, n: nat)
    requires n <= |req.channels|
    ensures |Sends(KeepGoing, sup, req, o, n)| == SendsDue(sup, req, n)
  {
    if n > 0 {
      KeepGoingLength(sup, req, o, n - 1);
    }
  }

  lemma {:induction false} SendsExtend(shape: Shape, sup: Table, req: Request, o: Oracle, m: nat, n: nat)
    requires m <= n <= |req.channels|
    ensures Sends(shape, sup, req, o, m) <= Sends(shape, sup, req, o, n)
  {
    if m < n {
      SendsExtend(shape, sup, req, o, m, n - 1);
    }
  }

  lemma SendAt(sup: Table, req: Request, o: Oracle, ci: nat, ri: nat)
    requires ci < |req.channels| && sup(req.channels[ci]) && ri < |req.recipients|
    ensures var before, here := |Sends(KeepGoing, sup, req, o, ci)|, Sends(KeepGoing, sup, req, o, ci + 1);
            before + ri < |here| && here[before + ri] == Send(req.channels[ci], req.recipients[ri], o(ci, ri))
  {
    var before := Sends(KeepGoing, sup, req, o, ci);
    assert Sends(KeepGoing, sup, req, o, ci + 1) == before + ChannelSends(KeepGoing, sup, req, o, ci);
    assert ChannelSends(KeepGoing, sup, req, o, ci) == SendsTo(req, o, ci, |req.recipients|);
  }

  /** A complete keep-going delivery attempts the supported occurrences times all recipients, in
      list order and nothing else: the send for position (ci, ri) stands at its place. */
  lemma KeepGoingSendsInOrder(sup: Table, req: Request, o: Oracle, ci: nat, ri: nat)
    requires ci < |req.channels| && sup(req.channels[ci]) && ri < |req.recipients|
    ensures var ss, k := Sends(KeepGoing, sup, req, o, |req.channels|), SendsDue(sup, req, ci) + ri;
            && |ss| == SendsDue(sup, req, |req.channels|)
            && k < |ss| && ss[k] == Send(req.channels[ci], req.recipients[ri], o(ci, ri))
  {
    hide Sends, SendsDue, ChannelSends;
    KeepGoingLength(sup, req, o, |req.channels|);
    KeepGoingLength(sup, req, o, ci);
    SendsExtend(KeepGoing, sup, req, o, ci + 1, |req.channels|);
    SendAt(sup, req, o, ci, ri);
  }

  // ---------------------------------------------------------------- what a delivery leaves

  /** Position of the last occurrence of a requested channel. */
  function LastIndex(s: seq<string>, c: string): (i: nat)
    requires c in s
    ensures i < |s| && s[i] == c && forall j :: i < j < |s| ==> s[j] != c
  {
    if s[|s| - 1] == c then |s| - 1
    else
      assert c in s[..|s| - 1];
      LastIndex(s[..|s| - 1], c)
  }

  predicate LastAt(trace: seq<Update>, id: Id, c: string, k: nat) {
    && k < |trace|
    && trace[k].id == id && trace[k].channel == c
    && forall j :: k < j < |trace| ==> !(trace[j].id == id && trace[j].channel == c)
  }

  lemma {:induction false} LastWriteAt(trace: seq<Update>, id: Id, c: string, k: nat)
    requires LastAt(trace, id, c, k)
    ensures LastWrite(trace, id, c) == Some(trace[k].status)
  {
    var t := trace[..|trace| - 1];
    if k < |t| {
      assert trace[|t|].channel != c || trace[|t|].id != id;
      assert t[k] == trace[k];
      forall j | k < j < |t| ensures !(t[j].id == id && t[j].channel == c) {
        assert t[j] == trace[j];
      }
      LastWriteAt(t, id, c, k);
    }
  }

  /** In a complete delivery the last write on a requested channel is the outcome at its last
      occurrence; on any other channel there is none. Holds from any point up to that write on. */
  lemma LastWriteOfDelivery(sup: Table, id: Id, req: Request, o: Oracle, c: string, from: nat)
    requires from <= 2 * |req.channels|
    ensures var us := AllUpdates(sup, id, req, o);
            && |us| == 2 * |req.channels|
            && LastWrite(us[from..], id, c) ==
               if c in req.channels && from <= 2 * LastIndex(req.channels, c) + 1
               then Some(Outcome(sup, req, o, LastIndex(req.channels, c))) else None
  {
    UpdatesShape(sup, id, req, o, |req.channels|);
    if c in req.channels && from <= 2 * LastIndex(req.channels, c) + 1 {
      LastWriteFound(sup, id, req, o, c, from);
    } else {
      LastWriteMissing(sup, id, req, o, c, from);
    }
  }

  /** After its last occurrence a channel is not updated again. */
  lemma NotAgain(sup: Table, id: Id, req: Request, o: Oracle, c: string, k: nat)
    requires k < 2 * |req.channels|
    requires c in req.channels ==> k > 2 * LastIndex(req.channels, c) + 1
    ensures UpdateAt(sup, id, req, o, k).channel != c
  {
  }

  lemma LastWriteFound(sup: Table, id: Id, req: Request, o: Oracle, c: string, from: nat)
    requires c in req.channels && from <= 2 * LastIndex(req.channels, c) + 1
    requires |AllUpdates(sup, id, req, o)| == 2 * |req.channels|
    ensures LastWrite(AllUpdates(sup, id, req, o)[from..], id, c) ==
            Some(Outcome(sup, req, o, LastIndex(req.channels, c)))
  {
    UpdatesShape(sup, id, req, o, |req.channels|);
    var us := AllUpdates(sup, id, req, o);
    var i := LastIndex(req.channels, c);
    assert (2 * i + 1) / 2 == i && (2 * i + 1) % 2 == 1;
    assert us[2 * i + 1] == UpdateAt(sup, id, req, o, 2 * i + 1);
    forall j | 2 * i + 1 < j < |us| ensures us[j].channel != c {
      NotAgain(sup, id, req, o, c, j);
    }
    assert LastAt(us[from..], id, c, 2 * i + 1 - from);
    LastWriteAt(us[from..], id, c, 2 * i + 1 - from);
  }

  lemma LastWriteMissing(sup: Table, id: Id, req: Request, o: Oracle, c: string, from: nat)
    requires c in req.channels ==> from > 2 * LastIndex(req.channels, c) + 1
    requires from <= |AllUpdates(sup, id, req, o)| == 2 * |req.channels|
    ensures LastWrite(AllUpdates(sup, id, req, o)[from..], id, c) == None
  {
    UpdatesShape(sup, id, req, o, |req.channels|);
    var us := AllUpdates(sup, id, req, o);
    forall j | from <= j < |us| ensures us[j].channel != c {
      NotAgain(sup, id, req, o, c, j);
    }
    LastWriteFinds(us[from..], id, c);
  }

  /** After one complete delivery a requested channel holds the outcome of its last occurrence:
      COMPLETED iff that occurrence has an adapter and every send there succeeded, else FAILED.
      Other channels keep what they had. */
  lemma DeliveryDecidesChannels(agg: Aggregator, sup: Table, rows: map<Id, Row>, id: Id, req: Request,
        o: Oracle, c: string)
    requires id in rows
    ensures var r := ApplyAll(agg, rows, AllUpdates(sup, id, req, o));
            && id in r
            && (c in req.channels ==>
                  var i := LastIndex(req.channels, c);
                  && c in r[id].channels
                  && (r[id].channels[c] == COMPLETED <==> sup(c) && AllSent(o, i, |req.recipients|))
                  && (r[id].channels[c] == FAILED <==> !(sup(c) && AllSent(o, i, |req.recipients|))))
            && (c !in req.channels ==>
                  (c in r[id].channels <==> c in rows[id].channels) &&
                  (c in rows[id].channels ==> r[id].channels[c] == rows[id].channels[c]))
  {
    var us := AllUpdates(sup, id, req, o);
    AppliedChannel(agg, rows, us, id, c);
    LastWriteOfDelivery(sup, id, req, o, c, 0);
    assert us[0..] == us;
  }

  // ---------------------------------------------------------------- redelivery

  /** A delivery cut short: the adapter table is the same, the outcomes need not be. */
  datatype Cut = Cut(o: Oracle, length: nat)

  function CutUpdates(sup: Table, id: Id, req: Request, cut: Cut): seq<Update> {
    var us := AllUpdates(sup, id, req, cut.o);
    if cut.length <= |us| then us[..cut.length] else us
  }

  function CutRuns(sup: Table, id: Id, req: Request, cuts: seq<Cut>): seq<Update> {
    if cuts == [] then []
    else CutRuns(sup, id, req, cuts[..|cuts| - 1]) + CutUpdates(sup, id, req, cuts[|cuts| - 1])
  }

  lemma {:induction false} CutRunsStayOnRequest(sup: Table, id: Id, req: Request, cuts: seq<Cut>)
    ensures forall u :: u in CutRuns(sup, id, req, cuts) ==> u.id == id && u.channel in req.channels
  {
    if cuts != [] {
      CutRunsStayOnRequest(sup, id, req, cuts[..|cuts| - 1]);
      var cut := cuts[|cuts| - 1];
      UpdatesShape(sup, id, req, cut.o, |req.channels|);
      forall u | u in CutUpdates(sup, id, req, cut) ensures u.id == id && u.channel in req.channels {
        var k :| 0 <= k < |CutUpdates(sup, id, req, cut)| && CutUpdates(sup, id, req, cut)[k] == u;
        assert u == AllUpdates(sup, id, req, cut.o)[k];
      }
    }
  }

  /** Redelivery is idempotent: any number of deliveries cut at any points, with any outcomes,
      before a complete one leave exactly what the complete one alone leaves. */
  lemma RedeliveryIsIdempotent(agg: Aggregator, sup: Table, rows: map<Id, Row>, id: Id, req: Request,
        cuts: seq<Cut>, o: Oracle)
    ensures ApplyAll(agg, rows, CutRuns(sup, id, req, cuts) + AllUpdates(sup, id, req, o)) ==
            ApplyAll(agg, rows, AllUpdates(sup, id, req, o))
  {
    var before, us := CutRuns(sup, id, req, cuts), AllUpdates(sup, id, req, o);
    CutRunsStayOnRequest(sup, id, req, cuts);
    UpdatesShape(sup, id, req, o, |req.channels|);
    forall k, c ensures LastWrite(before + us, k, c) == LastWrite(us, k, c) {
      LastWriteAppend(before, us, k, c);
      LastWriteFinds(before, k, c);
      if k == id {
        LastWriteOfDelivery(sup, id, req, o, c, 0);
        assert us[0..] == us;
      }
    }
    Confluence(agg, rows, before + us, us);
  }

  // ---------------------------------------------------------------- a row created late

  /** Rust produces the message before it creates the row, so the first `missed` updates of the
      delivery may find no row and be dropped. Every requested channel still ends terminal exactly
      when the creation came before the final update of every requested channel. */
  lemma LateCreationIff(agg: Aggregator, sup: Table, id: Id, req: Request, o: Oracle, missed: nat)
    requires missed <= 2 * |req.channels|
    ensures var us := AllUpdates(sup, id, req, o);
            && |us| == 2 * |req.channels|
            && ApplyAll(agg, map[], us[..missed]) == map[]
            && var r := ApplyAll(agg, map[id := Initial(ChannelSet(req.channels))], us[missed..]);
               && id in r
               && r[id].channels.Keys == ChannelSet(req.channels)
               && ((forall c :: c in req.channels ==> Terminal(r[id].channels[c])) <==>
                   (forall c :: c in req.channels ==> missed <= 2 * LastIndex(req.channels, c) + 1))
  {
    var us := AllUpdates(sup, id, req, o);
    UpdatesShape(sup, id, req, o, |req.channels|);
    ReplayIsSettled(agg, map[], us[..missed]);
    var rows := map[id := Initial(ChannelSet(req.channels))];
    var r := ApplyAll(agg, rows, us[missed..]);
    AppliedChannel(agg, rows, us[missed..], id, "");
    forall c ensures c in r[id].channels <==> c in req.channels {
      LateChannel(agg, sup, id, req, o, missed, c);
    }
    assert r[id].channels.Keys == ChannelSet(req.channels);
    forall c | c in req.channels
      ensures Terminal(r[id].channels[c]) <==> missed <= 2 * LastIndex(req.channels, c) + 1
    {
      LateChannel(agg, sup, id, req, o, missed, c);
    }
  }

  lemma LateChannel(agg: Aggregator, sup: Table, id: Id, req: Request, o: Oracle, missed: nat, c: string)
    requires missed <= 2 * |req.channels|
    ensures |AllUpdates(sup, id, req, o)| == 2 * |req.channels|
    ensures var r := ApplyAll(agg, map[id := Initial(ChannelSet(req.channels))], AllUpdates(sup, id, req, o)[missed..]);
            && id in r
            && (c in r[id].channels <==> c in req.channels)
            && (c in req.channels ==>
                  (Terminal(r[id].channels[c]) <==> missed <= 2 * LastIndex(req.channels, c) + 1))
  {
    LastWriteOfDelivery(sup, id, req, o, c, missed);
    AppliedChannel(agg, map[id := Initial(ChannelSet(req.channels))], AllUpdates(sup, id, req, o)[missed..], id, c);
  }
}
