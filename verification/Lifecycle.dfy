/** The lifecycle of one uninterrupted first delivery, update by update: the stages of each channel, and
    for which requests the overall status goes ENQUEUED, PROCESSING, and to its end without turning. */
module Lifecycles {
  import opened Statuses
  import opened Traces
  import opened Deliveries

  // ---------------------------------------------------------------- the row after k updates

  /** The row after k updates of an uninterrupted first delivery. */
  function After(d: Dialect, sup: Table, id: Id, req: Request, o: Oracle, k: nat): (r: Row)
    requires k <= 2 * |req.channels|
    ensures forall c :: c in r.channels <==> c in req.channels
    ensures r.status == if k == 0 then ENQUEUED else Agg(d, r.channels)
  {
    var rows := map[id := Initial(ChannelSet(req.channels))];
    UpdatesShape(sup, id, req, o, |req.channels|);
    var us := AllUpdates(sup, id, req, o)[..k];
    AppliedStatus(AggBy(d), rows, us, id);
    AfterChannels(d, sup, id, req, o, k);
    assert k > 0 ==> us[0].id == id;
    ApplyAll(AggBy(d), rows, us)[id]
  }

  lemma AfterChannels(d: Dialect, sup: Table, id: Id, req: Request, o: Oracle, k: nat)
    requires k <= 2 * |req.channels|
    ensures |AllUpdates(sup, id, req, o)| == 2 * |req.channels|
    ensures var r := ApplyAll(AggBy(d), map[id := Initial(ChannelSet(req.channels))], AllUpdates(sup, id, req, o)[..k]);
            id in r && forall c :: c in r[id].channels <==> c in req.channels
  {
    UpdatesShape(sup, id, req, o, |req.channels|);
    var us := AllUpdates(sup, id, req, o)[..k];
    var rows := map[id := Initial(ChannelSet(req.channels))];
    AppliedStatus(AggBy(d), rows, us, id);
    forall c ensures c in ApplyAll(AggBy(d), rows, us)[id].channels <==> c in req.channels {
      AppliedChannel(AggBy(d), rows, us, id, c);
      LastWriteFinds(us, id, c);
    }
  }

  /** After the updates of the first j entries the last write on a channel is the outcome of its last
      occurrence among them. */
  lemma {:induction false} LastWriteOfUpdates(sup: Table, id: Id, req: Request, o: Oracle, j: nat, c: string)
    requires j <= |req.channels|
    ensures LastWrite(Updates(sup, id, req, o, j), id, c) ==
            if c in req.channels[..j] then Some(Outcome(sup, req, o, LastIndex(req.channels[..j], c))) else None
  {
    if j > 0 {
      var us := Updates(sup, id, req, o, j - 1);
      var u, v := ChannelUpdates(sup, id, req, o, j - 1)[0], ChannelUpdates(sup, id, req, o, j - 1)[1];
      LastWriteOfUpdates(sup, id, req, o, j - 1, c);
      assert Updates(sup, id, req, o, j) == us + [u] + [v];
      LastWriteSnoc(us, u, id, c);
      LastWriteSnoc(us + [u], v, id, c);
      LastIndexNext(req.channels, j - 1, c);
    }
  }

  /** One more entry moves the last occurrence of its own channel only. */
  lemma LastIndexNext(s: seq<string>, j: nat, c: string)
    requires j < |s|
    ensures c in s[..j + 1] <==> c in s[..j] || c == s[j]
    ensures c == s[j] ==> LastIndex(s[..j + 1], c) == j
    ensures c != s[j] && c in s[..j] ==> LastIndex(s[..j + 1], c) == LastIndex(s[..j], c)
  {
    assert s[..j + 1] == s[..j] + [s[j]];
  }

  /** The status of a channel after k updates: PROCESSING while its entry is at hand, otherwise the
      outcome of its last finished entry, or PENDING. */
  function StageAt(sup: Table, req: Request, o: Oracle, c: string, k: nat): string
    requires k <= 2 * |req.channels|
  {
    var j := k / 2;
    if k % 2 == 1 && req.channels[j] == c then PROCESSING
    else if c in req.channels[..j] then Outcome(sup, req, o, LastIndex(req.channels[..j], c))
    else PENDING
  }

  lemma PrefixOfDelivery(sup: Table, id: Id, req: Request, o: Oracle, k: nat)
    requires k <= 2 * |req.channels|
    ensures var j, us := k / 2, AllUpdates(sup, id, req, o);
            && |us| == 2 * |req.channels|
            && us[..k] == Updates(sup, id, req, o, j) + if k % 2 == 1 then [Update(id, req.channels[j], PROCESSING)] else []
  {
    var j, us := k / 2, AllUpdates(sup, id, req, o);
    UpdatesShape(sup, id, req, o, |req.channels|);
    UpdatesShape(sup, id, req, o, j);
    var e := Updates(sup, id, req, o, j) + if k % 2 == 1 then [Update(id, req.channels[j], PROCESSING)] else [];
    assert |e| == k;
    forall i | 0 <= i < k ensures us[..k][i] == e[i] {
    }
  }

  lemma ChannelAfter(d: Dialect, sup: Table, id: Id, req: Request, o: Oracle, k: nat, c: string)
    requires k <= 2 * |req.channels| && c in req.channels
    ensures After(d, sup, id, req, o, k).channels[c] == StageAt(sup, req, o, c, k)
  {
    PrefixOfDelivery(sup, id, req, o, k);
    var us := AllUpdates(sup, id, req, o)[..k];
    AppliedChannel(AggBy(d), map[id := Initial(ChannelSet(req.channels))], us, id, c);
    LastWriteOfUpdates(sup, id, req, o, k / 2, c);
    if k % 2 == 1 {
      LastWriteSnoc(Updates(sup, id, req, o, k / 2), Update(id, req.channels[k / 2], PROCESSING), id, c);
    } else {
      assert us == Updates(sup, id, req, o, k / 2);
    }
  }

  /** The overall status is COMPLETED when all channels are and PARTIAL_FAILURE when one has failed. */
  lemma StatusAfter(d: Dialect, sup: Table, id: Id, req: Request, o: Oracle, k: nat)
    requires k <= 2 * |req.channels|
    ensures var st := After(d, sup, id, req, o, k).status;
            && (st == COMPLETED <==> k > 0 && forall c :: c in req.channels ==> StageAt(sup, req, o, c, k) == COMPLETED)
            && (st == PARTIAL_FAILURE <==> exists c :: c in req.channels && StageAt(sup, req, o, c, k) == FAILED)
  {
    var m := After(d, sup, id, req, o, k).channels;
    forall c | c in req.channels ensures m[c] == StageAt(sup, req, o, c, k) {
      ChannelAfter(d, sup, id, req, o, k, c);
    }
    StatusOfStages(d, m);
  }

  lemma StatusOfStages(d: Dialect, m: map<string, string>)
    requires forall c :: c in m ==> m[c] == PENDING || m[c] == PROCESSING || m[c] == COMPLETED || m[c] == FAILED
    ensures Agg(d, m) == COMPLETED <==> forall c :: c in m ==> m[c] == COMPLETED
    ensures Agg(d, m) == PARTIAL_FAILURE <==> exists c :: c in m && m[c] == FAILED
  {
    forall c | c in m
      ensures Is(d, m[c], COMPLETED) <==> m[c] == COMPLETED
      ensures Is(d, m[c], FAILED) <==> m[c] == FAILED
    {
      StagesArePlain(d, m[c]);
    }
  }

  // ---------------------------------------------------------------- distinct channels

  ghost predicate Distinct(s: seq<string>) {
    forall i, j :: 0 <= i < j < |s| ==> s[i] != s[j]
  }

  /** The status of channel position i after k updates of an uninterrupted first delivery. */
  function StageOf(sup: Table, req: Request, o: Oracle, i: nat, k: nat): string
    requires i < |req.channels|
  {
    if k <= 2 * i then PENDING else if k == 2 * i + 1 then PROCESSING else Outcome(sup, req, o, i)
  }

  lemma DistinctIndex(s: seq<string>, j: nat, i: nat)
    requires Distinct(s) && j <= |s| && i < |s|
    ensures s[i] in s[..j] <==> i < j
    ensures i < j ==> LastIndex(s[..j], s[i]) == i
  {
    if i < j {
      assert s[..j][i] == s[i];
    }
  }

  /** With distinct channels each channel moves PENDING, PROCESSING, outcome, once each. */
  lemma ChannelsMoveForward(d: Dialect, sup: Table, id: Id, req: Request, o: Oracle, k: nat, i: nat)
    requires k <= 2 * |req.channels| && Distinct(req.channels) && i < |req.channels|
    ensures var s := After(d, sup, id, req, o, k).channels[req.channels[i]];
            && s == StageOf(sup, req, o, i, k)
            && (Is(d, s, COMPLETED) <==> s == COMPLETED)
            && (Is(d, s, FAILED) <==> s == FAILED)
  {
    ChannelAfter(d, sup, id, req, o, k, req.channels[i]);
    DistinctIndex(req.channels, k / 2, i);
    StagesArePlain(d, StageOf(sup, req, o, i, k));
  }

  // ---------------------------------------------------------------- the overall status

  /** COMPLETED after the last update only, and a PARTIAL_FAILURE stays to the end. */
  ghost predicate Lifecycle(d: Dialect, sup: Table, id: Id, req: Request, o: Oracle) {
    && (forall k: nat :: k <= 2 * |req.channels| && After(d, sup, id, req, o, k).status == COMPLETED ==>
          k == 2 * |req.channels|)
    && (forall k: nat, l: nat :: k <= l <= 2 * |req.channels| && After(d, sup, id, req, o, k).status == PARTIAL_FAILURE ==>
          After(d, sup, id, req, o, l).status == PARTIAL_FAILURE)
  }

  predicate UnsupportedIn(sup: Table, channels: seq<string>, c: string) {
    exists i :: 0 <= i < |channels| && channels[i] != c && !sup(channels[i])
  }

  /** Repeated entries that cannot show: before each, another channel has failed for want of an
      adapter, or its own channel cannot fail for want of recipients; and if the last entry repeats,
      some channel has no adapter. */
  predicate RepeatsAreHarmless(sup: Table, req: Request) {
    && (forall j {:trigger req.channels[j]} :: 0 <= j < |req.channels| && req.channels[j] in req.channels[..j] ==>
          (sup(req.channels[j]) && req.recipients == []) || UnsupportedIn(sup, req.channels[..j], req.channels[j]))
    && (LastRepeats(req) ==> exists c :: c in req.channels && !sup(c))
  }

  predicate LastRepeats(req: Request) {
    var n := |req.channels|;
    n > 0 && req.channels[n - 1] in req.channels[..n - 1]
  }

  /** A channel without an adapter has failed once its entry is finished. */
  lemma UnsupportedHasFailed(sup: Table, req: Request, o: Oracle, c: string, k: nat)
    requires k <= 2 * |req.channels| && k % 2 == 0 && c in req.channels[..k / 2] && !sup(c)
    ensures StageAt(sup, req, o, c, k) == FAILED
  {
  }

  /** An update leaves the stage of every other channel alone. */
  lemma OtherStageStays(sup: Table, req: Request, o: Oracle, c: string, k: nat)
    requires k < 2 * |req.channels| && c != req.channels[k / 2]
    ensures StageAt(sup, req, o, c, k + 1) == StageAt(sup, req, o, c, k)
  {
    hide Outcome;
    if k % 2 == 1 {
      assert (k + 1) / 2 == k / 2 + 1 && (k + 1) % 2 == 0;
      LastIndexNext(req.channels, k / 2, c);
    } else {
      assert (k + 1) / 2 == k / 2 && (k + 1) % 2 == 1;
    }
  }

  lemma FailureStaysOneStep(sup: Table, req: Request, o: Oracle, c: string, k: nat) returns (b: string)
    requires RepeatsAreHarmless(sup, req) && k < 2 * |req.channels|
    requires c in req.channels && StageAt(sup, req, o, c, k) == FAILED
    ensures b in req.channels && StageAt(sup, req, o, b, k + 1) == FAILED
  {
    var j := k / 2;
    b := c;
    if c == req.channels[j] {
      assert k % 2 == 0 && c in req.channels[..j];
      assert !(sup(c) && req.recipients == []);
      var i :| 0 <= i < j && req.channels[..j][i] != c && !sup(req.channels[..j][i]);
      b := req.channels[i];
      assert b in req.channels[..j];
      UnsupportedHasFailed(sup, req, o, b, k);
    }
    OtherStageStays(sup, req, o, b, k);
  }

  lemma {:induction false} FailureStays(sup: Table, req: Request, o: Oracle, c: string, k: nat, l: nat)
    requires RepeatsAreHarmless(sup, req) && k <= l <= 2 * |req.channels|
    requires c in req.channels && StageAt(sup, req, o, c, k) == FAILED
    ensures exists b :: b in req.channels && StageAt(sup, req, o, b, l) == FAILED
    decreases l - k
  {
    hide StageAt, RepeatsAreHarmless;
    if k < l {
      var b := FailureStaysOneStep(sup, req, o, c, k);
      FailureStays(sup, req, o, b, k + 1, l);
    }
  }

  lemma NotCompletedEarly(sup: Table, req: Request, o: Oracle, k: nat)
    requires RepeatsAreHarmless(sup, req) && 0 < k < 2 * |req.channels|
    ensures exists c :: c in req.channels && StageAt(sup, req, o, c, k) != COMPLETED
  {
    var j, n := k / 2, |req.channels|;
    if k % 2 == 1 {
      assert req.channels[j] in req.channels && StageAt(sup, req, o, req.channels[j], k) == PROCESSING;
    } else if req.channels[n - 1] in req.channels[..j] {
      assert req.channels[..j] == req.channels[..n - 1][..j];
      assert LastRepeats(req);
      var c :| c in req.channels && !sup(c);
      assert StageAt(sup, req, o, c, k) != COMPLETED;
    } else {
      assert req.channels[n - 1] in req.channels && StageAt(sup, req, o, req.channels[n - 1], k) == PENDING;
    }
  }

  lemma HarmlessKeepsLifecycle(d: Dialect, sup: Table, id: Id, req: Request, o: Oracle)
    requires RepeatsAreHarmless(sup, req)
    ensures Lifecycle(d, sup, id, req, o)
  {
    forall k: nat | k <= 2 * |req.channels| && After(d, sup, id, req, o, k).status == COMPLETED
      ensures k == 2 * |req.channels|
    {
      StatusAfter(d, sup, id, req, o, k);
      if k < 2 * |req.channels| {
        NotCompletedEarly(sup, req, o, k);
      }
    }
    forall k: nat, l: nat | k <= l <= 2 * |req.channels| && After(d, sup, id, req, o, k).status == PARTIAL_FAILURE
      ensures After(d, sup, id, req, o, l).status == PARTIAL_FAILURE
    {
      StatusAfter(d, sup, id, req, o, k);
      StatusAfter(d, sup, id, req, o, l);
      var c :| c in req.channels && StageAt(sup, req, o, c, k) == FAILED;
      FailureStays(sup, req, o, c, k, l);
    }
  }

  /** All sends succeed except those on one channel. */
  function FailingOn(req: Request, c: string): Oracle {
    (i: nat, r: nat) => i < |req.channels| && req.channels[i] != c
  }

  /** A harmful repeat: its channel alone has failed, and starts again. */
  lemma HarmfulRepeat(d: Dialect, sup: Table, id: Id, req: Request, j: nat)
    requires j < |req.channels| && req.channels[j] in req.channels[..j]
    requires !(sup(req.channels[j]) && req.recipients == []) && !UnsupportedIn(sup, req.channels[..j], req.channels[j])
    ensures !Lifecycle(d, sup, id, req, FailingOn(req, req.channels[j]))
  {
    var c := req.channels[j];
    var o := FailingOn(req, c);
    var i := LastIndex(req.channels[..j], c);
    assert (2 * j) / 2 == j && (2 * j + 1) / 2 == j;
    if req.recipients != [] {
      assert !o(i, 0);
    }
    assert StageAt(sup, req, o, c, 2 * j) == FAILED;
    assert StageAt(sup, req, o, c, 2 * j + 1) == PROCESSING;
    forall b | b in req.channels ensures StageAt(sup, req, o, b, 2 * j + 1) != FAILED {
      if b != c && b in req.channels[..j] {
        var h := LastIndex(req.channels[..j], b);
        assert req.channels[..j][h] == b;
      }
    }
    StatusAfter(d, sup, id, req, o, 2 * j);
    StatusAfter(d, sup, id, req, o, 2 * j + 1);
    assert After(d, sup, id, req, o, 2 * j).status == PARTIAL_FAILURE;
  }

  /** If the last entry repeats and all channels have adapters, the row is COMPLETED before it. */
  lemma EarlyCompletion(d: Dialect, sup: Table, id: Id, req: Request)
    requires LastRepeats(req) && forall c :: c in req.channels ==> sup(c)
    ensures !Lifecycle(d, sup, id, req, (i: nat, r: nat) => true)
  {
    var o: Oracle := (i: nat, r: nat) => true;
    var n := |req.channels|;
    var k := 2 * (n - 1);
    assert k / 2 == n - 1 && k % 2 == 0;
    forall c | c in req.channels ensures StageAt(sup, req, o, c, k) == COMPLETED {
      LastIndexNext(req.channels, n - 1, c);
      assert req.channels[..n] == req.channels;
    }
    StatusAfter(d, sup, id, req, o, k);
    assert After(d, sup, id, req, o, k).status == COMPLETED && k != 2 * n;
  }

  /** Which requests keep the lifecycle, exactly: whatever the sends return, COMPLETED comes with the
      last update only and PARTIAL_FAILURE stays, if and only if repeated entries are harmless. */
  lemma LifecycleIff(d: Dialect, sup: Table, id: Id, req: Request)
    ensures (forall o: Oracle :: Lifecycle(d, sup, id, req, o)) <==> RepeatsAreHarmless(sup, req)
  {
    if RepeatsAreHarmless(sup, req) {
      forall o: Oracle ensures Lifecycle(d, sup, id, req, o) {
        HarmlessKeepsLifecycle(d, sup, id, req, o);
      }
    } else if LastRepeats(req) && forall c :: c in req.channels ==> sup(c) {
      EarlyCompletion(d, sup, id, req);
    } else {
      var j :| 0 <= j < |req.channels| && req.channels[j] in req.channels[..j] &&
               !((sup(req.channels[j]) && req.recipients == []) || UnsupportedIn(sup, req.channels[..j], req.channels[j]));
      HarmfulRepeat(d, sup, id, req, j);
    }
  }

  /** In particular requests without repeats. */
  lemma OverallStatusLifecycle(d: Dialect, sup: Table, id: Id, req: Request, o: Oracle)
    requires Distinct(req.channels)
    ensures Lifecycle(d, sup, id, req, o)
  {
    forall j | 0 <= j < |req.channels| ensures req.channels[j] !in req.channels[..j] {
      DistinctIndex(req.channels, j, j);
    }
    HarmlessKeepsLifecycle(d, sup, id, req, o);
  }

  /** A harmful repeat: a channel that fails and then succeeds leaves PARTIAL_FAILURE again. */
  lemma RepeatedChannelUndoesFailure(d: Dialect, sup: Table, id: Id)
    requires sup("sms")
    ensures var req := Request(["sms", "sms"], ["user"], "hi");
            && After(d, sup, id, req, (i, j) => i == 1, 2).status == PARTIAL_FAILURE
            && After(d, sup, id, req, (i, j) => i == 1, 4).status == COMPLETED
  {
    var req := Request(["sms", "sms"], ["user"], "hi");
    var o: Oracle := (i, j) => i == 1;
    assert !o(0, 0);
    assert StageAt(sup, req, o, "sms", 2) == FAILED && StageAt(sup, req, o, "sms", 4) == COMPLETED;
    assert "sms" == req.channels[0];
    StatusAfter(d, sup, id, req, o, 2);
    StatusAfter(d, sup, id, req, o, 4);
  }
}
