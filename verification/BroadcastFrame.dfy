/**
 What the broadcasting hub leaves alone: sending only ever appends to what sessions have been
 given, and a handler changes nothing else about any session but its own.
 */
module BroadcastFrame {
  import Q = WriteQueue
  import opened Broadcast

  /** `t` is `s` after zero or more submissions to it. */
  ghost predicate OnlyWritten(s: SessionState, t: SessionState) {
    && t == s.(q := s.q.(submitted := t.q.submitted, posted := t.q.posted), got := t.got)
    && |t.q.posted| >= |s.q.posted|
  }

  ghost predicate OnlyWrites(h: Hub, r: Hub) {
    && |r.sessions| == |h.sessions|
    && r.share == h.share
    && (forall i :: 0 <= i < |h.sessions| ==> OnlyWritten(h.sessions[i], r.sessions[i]))
  }

  lemma OnlyWritesTransitive(a: Hub, b: Hub, c: Hub)
    requires OnlyWrites(a, b) && OnlyWrites(b, c)
    ensures OnlyWrites(a, c)
  {
    forall i | 0 <= i < |a.sessions| ensures OnlyWritten(a.sessions[i], c.sessions[i]) {
      assert OnlyWritten(a.sessions[i], b.sessions[i]) && OnlyWritten(b.sessions[i], c.sessions[i]);
    }
  }

  lemma WriteAllFrame(h: Hub, body: Body)
    ensures OnlyWrites(h, WriteAll(h, body))
  {
  }

  lemma WriteOneFrame(h: Hub, k: nat, body: Body)
    requires k < |h.sessions|
    ensures OnlyWrites(h, WriteOne(h, k, body))
  {
  }

  lemma {:induction false} EmitEachFrame(h: Hub, k: nat, emits: seq<Emit>)
    requires k < |h.sessions|
    ensures OnlyWrites(h, EmitEach(h, k, emits))
    decreases |emits|
  {
    if emits != [] {
      var h1 := if emits[0].EmitAll? then WriteAll(h, emits[0].body) else WriteOne(h, k, emits[0].body);
      WriteAllFrame(h, emits[0].body);
      WriteOneFrame(h, k, emits[0].body);
      EmitEachFrame(h1, k, emits[1..]);
      OnlyWritesTransitive(h, h1, EmitEach(h, k, emits));
    }
  }

  lemma OnMessageFrame(h: Hub, k: nat, m: Inbound)
    requires k < |h.sessions|
    ensures OnlyWrites(h, OnMessage(h, k, m))
  {
    if m.NotAnObject? {
      WriteOneFrame(h, k, Failure("ILL_FORMED"));
    } else {
      var h1 := WriteAll(h, Echo(m.text));
      WriteAllFrame(h, Echo(m.text));
      match m {
        case BadHeader(_) => WriteOneFrame(h1, k, Failure("ILL_FORMED"));
        case UnknownApp(_) => WriteOneFrame(h1, k, Failure("APP_NOT_FOUND"));
        case Dispatched(_, emits) => EmitEachFrame(h1, k, emits);
      }
      OnlyWritesTransitive(h, h1, OnMessage(h, k, m));
    }
  }

  /** The session of a failed operation, with the close callback counted if it runs. */
  function Closed(s: SessionState, ec: Code): SessionState {
    if Closes(ec) then s.(closes := s.closes + 1) else s
  }

  lemma FailFrame(h: Hub, k: nat, ec: Code)
    requires k < |h.sessions|
    ensures OnlyWrites(Put(h, k, Closed(h.sessions[k], ec)), Fail(h, k, ec))
  {
    hide WriteAll;
    if Closes(ec) {
      WriteAllFrame(Put(h, k, Closed(h.sessions[k], ec)), Status(AsUnsigned(|h.share| - 1)));
    } else {
      assert Put(h, k, h.sessions[k]) == h;
    }
  }

  function Joined(h: Hub, k: nat): Hub
    requires k < |h.sessions|
  {
    Put(h, k, h.sessions[k].(joined := true, joinedAt := |h.log|)).(share := h.share + {k})
  }

  lemma OnOpenFrame(h: Hub, k: nat)
    requires k < |h.sessions|
    ensures OnlyWrites(Joined(h, k), OnOpen(h, k))
  {
    var h1 := Joined(h, k);
    var h2 := WriteOne(h1, k, Uid(h1.uid)).(uid := h1.uid + 1);
    var h3 := WriteOne(h2, k, AppList);
    assert OnlyWrites(h1, h2);
    WriteOneFrame(h2, k, AppList);
    OnlyWritesTransitive(h1, h2, h3);
    WriteAllFrame(h3, Status(AsUnsigned(|h3.share|)));
    OnlyWritesTransitive(h1, h3, OnOpen(h, k));
  }

  // ---------- Whole handlers ----------

  predicate HasSubject(a: Action) {
    !a.Connect? && !a.AppBroadcast?
  }

  /** What a handler makes of its own session, apart from what it sends. */
  function Own(h: Hub, a: Action): SessionState
    requires HasSubject(a) && Enabled(h, a)
  {
    var s := h.sessions[a.k];
    match a
    case AcceptOk(_) => s.(accepting := false, reading := true, joined := true, joinedAt := |h.log|)
    case AcceptErr(_, ec) => Closed(s.(accepting := false), ec)
    case ReadOk(_, _) => s
    case ReadErr(_, ec) => Closed(s.(reading := false), ec)
    case RunTask(_) => s.(q := Q.AfterWriting(s.q))
    case WriteOk(_, op) => s.(q := Q.AfterOnWrite(s.q, op, true))
    case WriteErr(_, op, ec) => Closed(s.(q := Q.AfterOnWrite(s.q, op, false)), ec)
    case Free(_) => s.(freed := true)
  }

  /** The three error handlers: session `k` has become `t`, and `fail` runs. */
  lemma FailureFrame(h: Hub, k: nat, t: SessionState, ec: Code, i: nat)
    requires k < |h.sessions| && i < |h.sessions| && !h.sessions[i].handling && t.handling
    ensures var r := Return(Fail(Put(h, k, t), k, ec), k);
      && |r.sessions| == |h.sessions|
      && OnlyWritten(if i == k then Closed(t.(handling := false), ec) else h.sessions[i], r.sessions[i])
  {
    var h1 := Put(h, k, t);
    FailFrame(h1, k, ec);
    var h2 := Fail(h1, k, ec);
    hide Fail;
    assert OnlyWritten(Put(h1, k, Closed(t, ec)).sessions[i], h2.sessions[i]);
  }

  lemma AcceptFrame(h: Hub, k: nat, i: nat)
    requires Enabled(h, AcceptOk(k)) && i < |h.sessions| && !h.sessions[i].handling
    ensures var r := Step(h, AcceptOk(k)).sessions[i];
      OnlyWritten(if i == k then Own(h, AcceptOk(k)) else h.sessions[i], r)
  {
    var h1 := Put(h, k, h.sessions[k].(accepting := false, handling := true, reading := true));
    OnOpenFrame(h1, k);
    var h2 := OnOpen(h1, k);
    hide OnOpen;
    assert OnlyWritten(Joined(h1, k).sessions[i], h2.sessions[i]);
  }

  lemma ReadFrame(h: Hub, k: nat, m: Inbound, i: nat)
    requires Enabled(h, ReadOk(k, m)) && i < |h.sessions| && !h.sessions[i].handling
    ensures OnlyWritten(h.sessions[i], Step(h, ReadOk(k, m)).sessions[i])
  {
    var h1 := Put(h, k, h.sessions[k].(reading := false, handling := true));
    OnMessageFrame(h1, k, m);
    var h2 := OnMessage(h1, k, m);
    hide OnMessage;
    assert OnlyWritten(h1.sessions[i], h2.sessions[i]);
  }

  /** Every session but the handler's own is only written to, and its own becomes `Own`. */
  lemma StepFrame(h: Hub, a: Action, i: nat)
    requires Enabled(h, a) && i < |h.sessions| && !h.sessions[i].handling
    ensures var r := Step(h, a).sessions[i];
      OnlyWritten(if HasSubject(a) && i == a.k then Own(h, a) else h.sessions[i], r)
  {
    hide Fail, OnOpen, OnMessage, Return, WriteAll;
    match a
    case Connect =>
    case AppBroadcast(body) => WriteAllFrame(h, body);
    case AcceptOk(k) => AcceptFrame(h, k, i);
    case AcceptErr(k, ec) => FailureFrame(h, k, h.sessions[k].(accepting := false, handling := true), ec, i);
    case ReadOk(k, m) => ReadFrame(h, k, m, i);
    case ReadErr(k, ec) => FailureFrame(h, k, h.sessions[k].(reading := false, handling := true), ec, i);
    case RunTask(k) =>
    case WriteOk(k, op) =>
    case WriteErr(k, op, ec) =>
      FailureFrame(h, k, h.sessions[k].(q := Q.AfterOnWrite(h.sessions[k].q, op, false), handling := true), ec, i);
    case Free(k) =>
  }

  // ---------- Sessions nothing refers to, and the log ----------

  lemma {:induction false} EmitEachSkipsDead(h: Hub, k: nat, emits: seq<Emit>, dead: nat)
    requires k < |h.sessions| && dead < |h.sessions| && dead != k && Refs(h.sessions[dead]) == 0
    ensures EmitEach(h, k, emits).sessions[dead] == h.sessions[dead]
    decreases |emits|
  {
    if emits != [] {
      var h1 := if emits[0].EmitAll? then WriteAll(h, emits[0].body) else WriteOne(h, k, emits[0].body);
      EmitEachSkipsDead(h1, k, emits[1..], dead);
    }
  }

  lemma {:induction false} EmitEachGrowsLog(h: Hub, k: nat, emits: seq<Emit>)
    requires k < |h.sessions|
    ensures h.log <= EmitEach(h, k, emits).log
    decreases |emits|
  {
    if emits != [] {
      var h1 := if emits[0].EmitAll? then WriteAll(h, emits[0].body) else WriteOne(h, k, emits[0].body);
      EmitEachGrowsLog(h1, k, emits[1..]);
    }
  }

  lemma OnMessageFrameLog(h: Hub, k: nat, m: Inbound)
    requires k < |h.sessions|
    ensures h.log <= OnMessage(h, k, m).log
  {
    if m.Dispatched? {
      EmitEachGrowsLog(WriteAll(h, Echo(m.text)), k, m.emits);
    }
  }

  /** The log of broadcasts is append-only. */
  lemma StepGrowsLog(h: Hub, a: Action)
    requires Enabled(h, a)
    ensures h.log <= Step(h, a).log
  {
    if a.ReadOk? {
      hide OnMessage;
      OnMessageFrameLog(Put(h, a.k, h.sessions[a.k].(reading := false, handling := true)), a.k, a.m);
    }
  }

  lemma SendsSkipDead(h: Hub, k: nat, dead: nat)
    requires k < |h.sessions| && dead < |h.sessions| && dead != k && Refs(h.sessions[dead]) == 0
    ensures OnOpen(h, k).sessions[dead] == h.sessions[dead]
    ensures forall ec :: Fail(h, k, ec).sessions[dead] == h.sessions[dead]
    ensures forall m :: OnMessage(h, k, m).sessions[dead] == h.sessions[dead]
  {
    forall m ensures OnMessage(h, k, m).sessions[dead] == h.sessions[dead] {
      if m.Dispatched? {
        EmitEachSkipsDead(WriteAll(h, Echo(m.text)), k, m.emits, dead);
      }
    }
  }

  /** No handler touches a session that nothing refers to, except to destroy it. */
  lemma StepSkipsDead(h: Hub, a: Action, dead: nat)
    requires Enabled(h, a) && dead < |h.sessions| && Refs(h.sessions[dead]) == 0
    ensures var r := Step(h, a);
      r.sessions[dead] == h.sessions[dead].(freed := r.sessions[dead].freed)
  {
    if a.AcceptOk? || a.AcceptErr? || a.ReadOk? || a.ReadErr? || a.WriteErr? {
      var s := h.sessions[a.k];
      var t := match a
        case AcceptOk(_) => s.(accepting := false, handling := true, reading := true)
        case AcceptErr(_, _) => s.(accepting := false, handling := true)
        case WriteErr(_, op, _) => s.(q := Q.AfterOnWrite(s.q, op, false), handling := true)
        case _ => s.(reading := false, handling := true);
      SendsSkipDead(Put(h, a.k, t), a.k, dead);
      hide WriteAll, OnOpen, OnMessage, Fail;
    }
  }
}
