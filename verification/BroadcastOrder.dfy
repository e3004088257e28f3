/**
 Whole-run order properties of the broadcasting hub: every session receives a gap-free segment of
 one global log of broadcasts, all sessions agree on its order, and the message counters a client
 sees on its wire strictly increase.
 */
module BroadcastOrder {
  import Q = WriteQueue
  import opened Broadcast
  import opened BroadcastFrame

  // ---------- Specification vocabulary ----------

  /** The broadcasts among the messages of one session. */
  function Broadcasts(ms: seq<Msg>): seq<Msg> {
    if ms == [] then []
    else Broadcasts(ms[..|ms| - 1]) + (if ms[|ms| - 1].ToAll? then [ms[|ms| - 1]] else [])
  }

  /** Counters strictly increase and are all below `bound`. */
  ghost predicate Increasing(ms: seq<Msg>, bound: nat) {
    && (forall i, j :: 0 <= i < j < |ms| ==> ms[i].mid < ms[j].mid)
    && (forall i :: 0 <= i < |ms| ==> ms[i].mid < bound)
  }

  /** `part` is the stretch of `log` that starts at `from`. */
  ghost predicate Segment(part: seq<Msg>, log: seq<Msg>, from: nat) {
    from + |part| <= |log| && part == log[from..from + |part|]
  }

  // ---------- The invariant ----------

  ghost predicate SessionInv(s: SessionState, member: bool, log: seq<Msg>, mid: nat) {
    && Q.Inv(s.q)
    && (member <==> s.joined && !s.freed)
    && (s.freed ==> Refs(s) == 0)
    && (s.joined ==> !s.accepting)
    && (!s.joined ==> s.q == Q.Empty() && s.got == [] && s.joinedAt == 0)
    && Segment(s.got, log, s.joinedAt)
    && (s.joined && Refs(s) > 0 ==> s.joinedAt + |s.got| == |log|)
    && Broadcasts(s.q.submitted) == s.got
    && Increasing(s.q.submitted, mid)
  }

  ghost predicate Inv(h: Hub) {
    && (forall i :: 0 <= i < |h.sessions| ==> SessionInv(h.sessions[i], i in h.share, h.log, h.mid))
    && (forall i :: i in h.share ==> i < |h.sessions|)
    && (forall i :: 0 <= i < |h.log| ==> h.log[i].ToAll?)
    && Increasing(h.log, h.mid)
  }

  /** Between handlers nothing is running, and a session reads only after it has joined. */
  ghost predicate AtRest(h: Hub) {
    forall i :: 0 <= i < |h.sessions| ==> Rested(h.sessions[i])
  }

  predicate Rested(s: SessionState) {
    !s.handling && (s.reading ==> s.joined)
  }

  // ---------- Primitive steps ----------

  lemma BroadcastsSnoc(ms: seq<Msg>, m: Msg)
    ensures Broadcasts(ms + [m]) == Broadcasts(ms) + (if m.ToAll? then [m] else [])
  {
    assert (ms + [m])[..|ms|] == ms;
  }

  lemma SegmentExtends(part: seq<Msg>, log: seq<Msg>, from: nat, m: Msg)
    requires Segment(part, log, from)
    ensures Segment(part, log + [m], from)
    ensures from + |part| == |log| ==> Segment(part + [m], log + [m], from)
  {
    assert (log + [m])[from..from + |part|] == log[from..from + |part|];
  }

  lemma SubmitKeepsQueueInv(q: Q.Queue<Msg>, m: Msg)
    requires Q.Inv(q)
    ensures Q.Inv(Q.AfterWrite(q, m))
  {
    Q.StepKeepsInv(q, Q.Submit(m));
  }

  lemma DeliverKeepsInv(s: SessionState, log: seq<Msg>, mid: nat, m: Msg)
    requires SessionInv(s, true, log, mid) && Refs(s) > 0 && m.ToAll? && m.mid == mid
    ensures SessionInv(Deliver(s, m), true, log + [m], mid + 1)
  {
    SubmitKeepsQueueInv(s.q, m);
    SegmentExtends(s.got, log, s.joinedAt, m);
    BroadcastsSnoc(s.q.submitted, m);
  }

  lemma SkipKeepsInv(s: SessionState, member: bool, log: seq<Msg>, mid: nat, m: Msg)
    requires SessionInv(s, member, log, mid) && (!member || Refs(s) == 0)
    ensures SessionInv(s, member, log + [m], mid + 1)
  {
    SegmentExtends(s.got, log, s.joinedAt, m);
  }

  lemma WriteAllKeepsInv(h: Hub, body: Body)
    requires Inv(h)
    ensures Inv(WriteAll(h, body))
  {
    var r := WriteAll(h, body);
    var m := ToAll(h.mid, body);
    hide SessionInv;
    forall i | 0 <= i < |h.sessions|
      ensures SessionInv(r.sessions[i], i in r.share, r.log, r.mid)
    {
      if Promoted(h, i) {
        DeliverKeepsInv(h.sessions[i], h.log, h.mid, m);
      } else {
        SkipKeepsInv(h.sessions[i], i in h.share, h.log, h.mid, m);
      }
    }
  }

  lemma SubmitOneKeepsInv(s: SessionState, member: bool, log: seq<Msg>, mid: nat, m: Msg)
    requires SessionInv(s, member, log, mid) && s.joined && m.ToOne? && m.mid == mid
    requires Refs(s) > 0
    ensures SessionInv(s.(q := Q.AfterWrite(s.q, m)), member, log, mid + 1)
  {
    SubmitKeepsQueueInv(s.q, m);
    BroadcastsSnoc(s.q.submitted, m);
  }

  lemma CounterGrows(s: SessionState, member: bool, log: seq<Msg>, mid: nat)
    requires SessionInv(s, member, log, mid)
    ensures SessionInv(s, member, log, mid + 1)
  {
  }

  lemma WriteOneKeepsInv(h: Hub, k: nat, body: Body)
    requires Inv(h) && k < |h.sessions| && h.sessions[k].joined && Refs(h.sessions[k]) > 0
    ensures Inv(WriteOne(h, k, body))
  {
    hide SessionInv, Refs, Q.AfterWrite;
    var r := WriteOne(h, k, body);
    forall i | 0 <= i < |h.sessions|
      ensures SessionInv(r.sessions[i], i in r.share, r.log, r.mid)
    {
      if i == k {
        SubmitOneKeepsInv(h.sessions[k], k in h.share, h.log, h.mid, ToOne(h.mid, body));
      } else {
        CounterGrows(h.sessions[i], i in h.share, h.log, h.mid);
      }
    }
  }

  lemma {:induction false} EmitEachKeepsInv(h: Hub, k: nat, emits: seq<Emit>)
    requires Inv(h) && k < |h.sessions| && h.sessions[k].joined && Refs(h.sessions[k]) > 0
    ensures Inv(EmitEach(h, k, emits))
    decreases |emits|
  {
    hide SessionInv, Increasing;
    if emits != [] {
      var h1 := if emits[0].EmitAll? then WriteAll(h, emits[0].body) else WriteOne(h, k, emits[0].body);
      if emits[0].EmitAll? {
        WriteAllKeepsInv(h, emits[0].body);
        WriteAllFrame(h, emits[0].body);
      } else {
        WriteOneKeepsInv(h, k, emits[0].body);
      }
      assert OnlyWritten(h.sessions[k], h1.sessions[k]);
      EmitEachKeepsInv(h1, k, emits[1..]);
    }
  }

  lemma OnMessageKeepsInv(h: Hub, k: nat, m: Inbound)
    requires Inv(h) && k < |h.sessions| && h.sessions[k].joined && h.sessions[k].handling
    ensures Inv(OnMessage(h, k, m))
  {
    hide SessionInv, Increasing;
    if m.NotAnObject? {
      WriteOneKeepsInv(h, k, Failure("ILL_FORMED"));
    } else {
      var h1 := WriteAll(h, Echo(m.text));
      WriteAllKeepsInv(h, Echo(m.text));
      WriteAllFrame(h, Echo(m.text));
      assert OnlyWritten(h.sessions[k], h1.sessions[k]);
      match m {
        case BadHeader(_) => WriteOneKeepsInv(h1, k, Failure("ILL_FORMED"));
        case UnknownApp(_) => WriteOneKeepsInv(h1, k, Failure("APP_NOT_FOUND"));
        case Dispatched(_, emits) => EmitEachKeepsInv(h1, k, emits);
      }
    }
  }

  // ---------- Handlers ----------

  /** Changing one session's flags keeps the invariant as long as no reference appears from nowhere. */
  lemma FlagsKeepInv(h: Hub, k: nat, t: SessionState)
    requires Inv(h) && k < |h.sessions|
    requires var s := h.sessions[k];
      && t == s.(accepting := t.accepting, reading := t.reading, handling := t.handling, closes := t.closes)
      && (Refs(t) > 0 ==> Refs(s) > 0)
      && (t.accepting ==> s.accepting)
    ensures Inv(Put(h, k, t))
  {
    PutKeepsInv(h, k, t);
  }

  lemma QueueStepKeepsInv(h: Hub, k: nat, a: Q.Action<Msg>)
    requires Inv(h) && k < |h.sessions| && !a.Submit? && Q.Enabled(h.sessions[k].q, a)
    ensures Inv(Put(h, k, h.sessions[k].(q := Q.Step(h.sessions[k].q, a))))
  {
    var s := h.sessions[k];
    Q.StepKeepsInv(s.q, a);
    PutKeepsInv(h, k, s.(q := Q.Step(s.q, a)));
  }

  lemma PutKeepsInv(h: Hub, k: nat, s: SessionState)
    requires Inv(h) && k < |h.sessions|
    requires SessionInv(s, k in h.share, h.log, h.mid)
    ensures Inv(Put(h, k, s))
  {
    hide SessionInv, Increasing;
  }

  lemma FailKeepsInv(h: Hub, k: nat, ec: Code)
    requires Inv(h) && k < |h.sessions|
    ensures Inv(Fail(h, k, ec)) && |Fail(h, k, ec).sessions| == |h.sessions|
  {
    hide SessionInv, Increasing;
    if Closes(ec) {
      var t := h.sessions[k].(closes := h.sessions[k].closes + 1);
      FlagsKeepInv(h, k, t);
      WriteAllKeepsInv(Put(h, k, t), Status(AsUnsigned(|h.share| - 1)));
    }
  }

  lemma JoinSessionKeepsInv(s: SessionState, log: seq<Msg>, mid: nat)
    requires SessionInv(s, false, log, mid) && !s.joined && !s.accepting && Refs(s) > 0
    ensures SessionInv(s.(joined := true, joinedAt := |log|), true, log, mid)
  {
  }

  /** One session changes, and with it perhaps its membership. */
  lemma MembershipKeepsInv(h: Hub, k: nat, t: SessionState, share: set<nat>)
    requires Inv(h) && k < |h.sessions| && share - {k} == h.share - {k}
    requires SessionInv(t, k in share, h.log, h.mid)
    ensures Inv(Put(h, k, t).(share := share))
  {
    hide SessionInv, Increasing;
    forall i | 0 <= i < |h.sessions| && i != k ensures SessionInv(h.sessions[i], i in share, h.log, h.mid) {
      assert i in share - {k} <==> i in h.share - {k};
    }
    forall i | i in share ensures i < |h.sessions| {
      assert i != k ==> i in h.share - {k};
    }
  }

  lemma JoinKeepsInv(h: Hub, k: nat)
    requires Inv(h) && k < |h.sessions| && !h.sessions[k].joined
    requires h.sessions[k].handling && !h.sessions[k].accepting
    ensures Inv(Joined(h, k))
  {
    NotJoinedNotMember(h, k);
    hide SessionInv, Increasing;
    JoinSessionKeepsInv(h.sessions[k], h.log, h.mid);
    MembershipKeepsInv(h, k, h.sessions[k].(joined := true, joinedAt := |h.log|), h.share + {k});
  }

  lemma NotJoinedNotMember(h: Hub, k: nat)
    requires Inv(h) && k < |h.sessions| && !h.sessions[k].joined
    ensures SessionInv(h.sessions[k], false, h.log, h.mid)
  {
    assert SessionInv(h.sessions[k], k in h.share, h.log, h.mid);
  }

  lemma OnOpenKeepsInv(h: Hub, k: nat)
    requires Inv(h) && k < |h.sessions| && !h.sessions[k].joined
    requires h.sessions[k].handling && !h.sessions[k].accepting
    ensures Inv(OnOpen(h, k))
    ensures OnOpen(h, k).sessions[k].joined
  {
    hide SessionInv, Increasing, WriteAll, WriteOne;
    JoinKeepsInv(h, k);
    var h1 := Joined(h, k);
    WriteOneKeepsInv(h1, k, Uid(h1.uid));
    WriteOneFrame(h1, k, Uid(h1.uid));
    var h2 := WriteOne(h1, k, Uid(h1.uid)).(uid := h1.uid + 1);
    assert OnlyWritten(h1.sessions[k], h2.sessions[k]);
    WriteOneKeepsInv(h2, k, AppList);
    var h3 := WriteOne(h2, k, AppList);
    WriteAllKeepsInv(h3, Status(AsUnsigned(|h3.share|)));
    OnOpenFrame(h, k);
    assert OnlyWritten(h1.sessions[k], OnOpen(h, k).sessions[k]);
  }

  lemma FreeSessionKeepsInv(s: SessionState, member: bool, log: seq<Msg>, mid: nat)
    requires SessionInv(s, member, log, mid) && Refs(s) == 0
    ensures SessionInv(s.(freed := true), false, log, mid)
  {
  }

  lemma FreeKeepsInv(h: Hub, k: nat)
    requires Inv(h) && Enabled(h, Free(k))
    ensures Inv(Step(h, Free(k)))
  {
    hide SessionInv, Increasing;
    FreeSessionKeepsInv(h.sessions[k], k in h.share, h.log, h.mid);
    MembershipKeepsInv(h, k, h.sessions[k].(freed := true), h.share - {k});
  }

  lemma ConnectKeepsInv(h: Hub)
    requires Inv(h)
    ensures Inv(Step(h, Connect))
  {
    assert SessionInv(Fresh(), false, h.log, h.mid);
    hide SessionInv, Increasing;
    var r := Step(h, Connect);
    forall i | 0 <= i < |r.sessions| ensures SessionInv(r.sessions[i], i in r.share, r.log, r.mid) {
      if i < |h.sessions| {
        assert SessionInv(h.sessions[i], i in h.share, h.log, h.mid);
      }
    }
  }

  /** A session with an outstanding handshake has not joined. */
  lemma AcceptingNotJoined(h: Hub, k: nat)
    requires Inv(h) && k < |h.sessions| && h.sessions[k].accepting
    ensures !h.sessions[k].joined
  {
  }

  lemma StepKeepsInv(h: Hub, a: Action)
    requires Inv(h) && AtRest(h) && Enabled(h, a)
    ensures Inv(Step(h, a))
  {
    hide SessionInv, Increasing, WriteAll, Fail, OnOpen, OnMessage;
    match a
    case Connect => ConnectKeepsInv(h);
    case AppBroadcast(body) => WriteAllKeepsInv(h, body);
    case AcceptOk(k) =>
      AcceptingNotJoined(h, k);
      var t := h.sessions[k].(accepting := false, handling := true, reading := true);
      FlagsKeepInv(h, k, t);
      var h1 := OnOpen(Put(h, k, t), k);
      OnOpenKeepsInv(Put(h, k, t), k);
      FlagsKeepInv(h1, k, h1.sessions[k].(handling := false));
    case AcceptErr(k, ec) =>
      var t := h.sessions[k].(accepting := false, handling := true);
      FlagsKeepInv(h, k, t);
      FailKeepsInv(Put(h, k, t), k, ec);
      var h1 := Fail(Put(h, k, t), k, ec);
      FlagsKeepInv(h1, k, h1.sessions[k].(handling := false));
    case ReadOk(k, m) =>
      var t := h.sessions[k].(reading := false, handling := true);
      FlagsKeepInv(h, k, t);
      var h1 := Put(h, k, t);
      OnMessageKeepsInv(h1, k, m);
      var h2 := OnMessage(h1, k, m);
      OnMessageFrame(h1, k, m);
      assert OnlyWritten(h1.sessions[k], h2.sessions[k]);
      FlagsKeepInv(h2, k, h2.sessions[k].(reading := true));
      var h3 := Put(h2, k, h2.sessions[k].(reading := true));
      FlagsKeepInv(h3, k, h3.sessions[k].(handling := false));
    case ReadErr(k, ec) =>
      var t := h.sessions[k].(reading := false, handling := true);
      FlagsKeepInv(h, k, t);
      FailKeepsInv(Put(h, k, t), k, ec);
      var h1 := Fail(Put(h, k, t), k, ec);
      FlagsKeepInv(h1, k, h1.sessions[k].(handling := false));
    case RunTask(k) => QueueStepKeepsInv(h, k, Q.Execute);
    case WriteOk(k, op) => QueueStepKeepsInv(h, k, Q.Finish(op, true));
    case WriteErr(k, op, ec) =>
      WriteErrKeepsInv(h, k, op, ec);
    case Free(k) => FreeKeepsInv(h, k);
  }

  lemma WriteErrKeepsInv(h: Hub, k: nat, op: nat, ec: Code)
    requires Inv(h) && Enabled(h, WriteErr(k, op, ec))
    ensures Inv(Step(h, WriteErr(k, op, ec)))
  {
    hide SessionInv, Increasing, WriteAll, Fail, OnOpen, OnMessage;
    var s := h.sessions[k];
    FlagsKeepInv(h, k, s.(handling := true));
    QueueStepKeepsInv(Put(h, k, s.(handling := true)), k, Q.Finish(op, false));
    var t := s.(q := Q.AfterOnWrite(s.q, op, false), handling := true);
    assert Put(Put(h, k, s.(handling := true)), k, t) == Put(h, k, t);
    FailKeepsInv(Put(h, k, t), k, ec);
    var h1 := Fail(Put(h, k, t), k, ec);
    FlagsKeepInv(h1, k, h1.sessions[k].(handling := false));
  }

  lemma OwnKeepsRest(h: Hub, a: Action)
    requires HasSubject(a) && Enabled(h, a) && Rested(h.sessions[a.k])
    ensures Rested(Own(h, a))
  {
    hide Q.AfterOnWrite, Q.AfterWriting;
  }

  lemma StepKeepsRest(h: Hub, a: Action)
    requires AtRest(h) && Enabled(h, a)
    ensures AtRest(Step(h, a))
  {
    var r := Step(h, a);
    if a.Connect? {
      assert Rested(Fresh());
    } else {
      hide Step, Own;
      if HasSubject(a) {
        OwnKeepsRest(h, a);
      }
      forall i | 0 <= i < |r.sessions| ensures Rested(r.sessions[i]) {
        StepFrame(h, a, i);
      }
    }
  }

  // ---------- Theorems over whole runs ----------

  lemma {:induction false} RunKeepsInv(h: Hub, acts: seq<Action>)
    requires Inv(h) && AtRest(h) && CanRun(h, acts)
    ensures Inv(Run(h, acts)) && AtRest(Run(h, acts))
    decreases |acts|
  {
    hide Inv, AtRest, Step;
    if acts != [] {
      StepKeepsInv(h, acts[0]);
      StepKeepsRest(h, acts[0]);
      RunKeepsInv(Step(h, acts[0]), acts[1..]);
    }
  }

  lemma Reachable(acts: seq<Action>)
    requires CanRun(Start(), acts)
    ensures Inv(Run(Start(), acts)) && AtRest(Run(Start(), acts))
  {
    RunKeepsInv(Start(), acts);
  }

  /** The broadcasts submitted to a session are exactly one stretch of the global log, starting
      where it joined; the stretch reaches the end of the log as long as anything refers to the
      session; and the broadcasts on the session's wire are a prefix of the stretch. */
  lemma SessionGetsSegment(acts: seq<Action>, k: nat)
    requires CanRun(Start(), acts) && k < |Run(Start(), acts).sessions|
    ensures var h := Run(Start(), acts); var s := h.sessions[k];
      && Segment(Broadcasts(s.q.submitted), h.log, s.joinedAt)
      && (k in h.share && Refs(s) > 0 ==> s.joinedAt + |Broadcasts(s.q.submitted)| == |h.log|)
      && Broadcasts(s.q.wire) <= Broadcasts(s.q.submitted)
  {
    Reachable(acts);
    var s := Run(Start(), acts).sessions[k];
    assert s.q.wire + (s.q.queue + s.q.posted) == s.q.submitted;
    BroadcastsOfPrefix(s.q.wire, s.q.queue + s.q.posted);
  }

  lemma {:induction false} BroadcastsOfPrefix(a: seq<Msg>, b: seq<Msg>)
    ensures Broadcasts(a) <= Broadcasts(a + b)
    decreases |b|
  {
    if b == [] {
      assert a + b == a;
    } else {
      BroadcastsOfPrefix(a, b[..|b| - 1]);
      assert a + b == (a + b[..|b| - 1]) + [b[|b| - 1]];
      BroadcastsSnoc(a + b[..|b| - 1], b[|b| - 1]);
    }
  }

  /** The global log only grows, and a session's stretch is over once nothing refers to it: from
      then on nothing is submitted to it and it never joins again. */
  lemma {:induction false} SegmentEndsAtLeave(h: Hub, acts: seq<Action>, k: nat)
    requires Inv(h) && AtRest(h) && CanRun(h, acts)
    requires k < |h.sessions| && Refs(h.sessions[k]) == 0
    ensures var r := Run(h, acts);
      && h.log <= r.log
      && k < |r.sessions|
      && r.sessions[k] == h.sessions[k].(freed := r.sessions[k].freed)
    decreases |acts|
  {
    if acts != [] {
      var a := acts[0];
      var h1 := Step(h, a);
      StepKeepsInv(h, a);
      StepKeepsRest(h, a);
      StepSkipsDead(h, a, k);
      StepGrowsLog(h, a);
      SegmentEndsAtLeave(h1, acts[1..], k);
    }
  }

  lemma SegmentIncreases(part: seq<Msg>, log: seq<Msg>, from: nat, bound: nat)
    requires Segment(part, log, from) && Increasing(log, bound)
    ensures Increasing(part, bound)
  {
    assert forall n :: 0 <= n < |part| ==> part[n] == log[from + n];
  }

  lemma PrefixIncreases(part: seq<Msg>, whole: seq<Msg>, bound: nat)
    requires part <= whole && Increasing(whole, bound)
    ensures Increasing(part, bound)
  {
  }

  /** The broadcasts on a session's wire carry strictly increasing counters. */
  lemma WireBroadcastsIncrease(acts: seq<Action>, k: nat)
    requires CanRun(Start(), acts) && k < |Run(Start(), acts).sessions|
    ensures var h := Run(Start(), acts); Increasing(Broadcasts(h.sessions[k].q.wire), h.mid)
  {
    Reachable(acts);
    SessionGetsSegment(acts, k);
    var h := Run(Start(), acts);
    var s := h.sessions[k];
    hide Run, CanRun, SessionInv;
    SegmentIncreases(Broadcasts(s.q.submitted), h.log, s.joinedAt, h.mid);
    PrefixIncreases(Broadcasts(s.q.wire), Broadcasts(s.q.submitted), h.mid);
  }

  /** Any two sessions see the broadcasts they share in the same order. */
  lemma SessionsAgree(acts: seq<Action>, a: nat, b: nat, i: nat, i': nat, j: nat, j': nat)
    requires CanRun(Start(), acts)
    requires a < |Run(Start(), acts).sessions| && b < |Run(Start(), acts).sessions|
    requires var h := Run(Start(), acts);
      var wa, wb := Broadcasts(h.sessions[a].q.wire), Broadcasts(h.sessions[b].q.wire);
      && i < |wa| && i' < |wa| && j < |wb| && j' < |wb|
      && wa[i] == wb[j] && wa[i'] == wb[j']
    ensures i < i' <==> j < j'
  {
    hide Run, CanRun, Broadcasts;
    WireBroadcastsIncrease(acts, a);
    WireBroadcastsIncrease(acts, b);
  }

  /** The message counters on each client's wire strictly increase. */
  lemma WireCountersIncrease(acts: seq<Action>, k: nat)
    requires CanRun(Start(), acts) && k < |Run(Start(), acts).sessions|
    ensures var h := Run(Start(), acts); Increasing(h.sessions[k].q.wire, h.mid)
  {
    Reachable(acts);
    var q := Run(Start(), acts).sessions[k].q;
    assert forall n :: 0 <= n < |q.wire| ==> q.wire[n] == (q.wire + q.queue + q.posted)[n];
  }
}
