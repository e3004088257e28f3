/**
 The number of members that the hub announces, against the number of members there are. A join is
 announced with the new count; a close is announced with the count less one before anybody has left;
 and leaving itself, which the destructor does, is not announced at all.
 */
module BroadcastStatus {
  import Q = WriteQueue
  import opened Broadcast
  import opened BroadcastFrame
  import opened BroadcastOrder

  /** What the last status message among some broadcasts says. */
  datatype Told = Unsaid | Users(n: nat)

  function LastStatus(log: seq<Msg>): Told {
    if log == [] then Unsaid
    else
      var body := log[|log| - 1].body;
      if body.Status? then Users(body.users) else LastStatus(log[..|log| - 1])
  }

  lemma LastStatusSnoc(log: seq<Msg>, m: Msg)
    ensures LastStatus(log + [m]) == if m.body.Status? then Users(m.body.users) else LastStatus(log)
  {
    assert (log + [m])[..|log|] == log;
  }

  /** A close with no members announces the largest unsigned number, and reaches nobody. */
  lemma EmptyHubReachesNobody(h: Hub, k: nat, ec: Code)
    requires h.share == {} && k < |h.sessions| && Closes(ec)
    ensures LastStatus(Fail(h, k, ec).log) == Users(0xffff_ffff)
    ensures Fail(h, k, ec).sessions == h.sessions[k := Closed(h.sessions[k], ec)]
  {
    LastStatusSnoc(h.log, ToAll(h.mid, Status(AsUnsigned(|h.share| - 1))));
    hide LastStatus;
  }

  // ---------- One close ----------

  /** The count announced for a close is the number of members other than the closing session exactly
      when that session is a member. */
  lemma CloseAnnouncesTruthIff(h: Hub, k: nat, ec: Code)
    requires k < |h.sessions| && Closes(ec) && |h.share| < 0x1_0000_0000
    ensures LastStatus(Fail(h, k, ec).log) == Users(|h.share - {k}|) <==> k in h.share
  {
    LastStatusSnoc(h.log, ToAll(h.mid, Status(AsUnsigned(|h.share| - 1))));
    if k in h.share {
      assert |h.share - {k}| == |h.share| - 1;
    } else {
      assert h.share - {k} == h.share;
    }
  }

  /** In every run a member is a session whose handshake has succeeded and that is not destroyed, so a
      failure announces the members that remain exactly when it is not the handshake that failed. */
  lemma FailureAnnouncesTruthIff(acts: seq<Action>, a: Action)
    requires CanRun(Start(), acts) && Enabled(Run(Start(), acts), a)
    requires a.AcceptErr? || a.ReadErr? || a.WriteErr?
    requires Closes(a.ec) && |Run(Start(), acts).share| < 0x1_0000_0000
    ensures var h := Run(Start(), acts); var s := h.sessions[a.k];
      && (a.k in h.share <==> s.joined && !s.freed)
      && (s.joined && !s.freed <==> !a.AcceptErr?)
      && (LastStatus(Step(h, a).log) == Users(|h.share - {a.k}|) <==> !a.AcceptErr?)
  {
    var h := Run(Start(), acts);
    var s := h.sessions[a.k];
    Reachable(acts);
    hide Run, CanRun;
    assert SessionInv(s, a.k in h.share, h.log, h.mid) && Rested(s);
    MemberFails(s, a.k in h.share, h.log, h.mid, a);
    hide Inv, SessionInv, Fail;
    var t := match a
      case AcceptErr(_, _) => s.(accepting := false, handling := true)
      case ReadErr(_, _) => s.(reading := false, handling := true)
      case WriteErr(_, op, _) => s.(q := Q.AfterOnWrite(s.q, op, false), handling := true)
      case _ => s;
    CloseAnnouncesTruthIff(Put(h, a.k, t), a.k, a.ec);
  }

  lemma MemberFails(s: SessionState, member: bool, log: seq<Msg>, mid: nat, a: Action)
    requires SessionInv(s, member, log, mid) && Rested(s)
    requires match a
      case AcceptErr(_, _) => s.accepting
      case ReadErr(_, _) => s.reading
      case WriteErr(_, op, _) => op < |s.q.inFlight|
      case _ => false
    ensures member <==> s.joined && !s.freed
    ensures s.joined && !s.freed <==> !a.AcceptErr?
  {
    hide Increasing, Segment, Broadcasts, Q.Inv;
  }

  // ---------- A whole run ----------

  /** What the last announcement was about, and how many members were destroyed since. */
  datatype Since = NoneYet | SinceOpen(destroyed: nat) | SinceClose(destroyed: nat)

  function AfterFree(t: Since, member: bool): Since {
    if !member || t.NoneYet? then t else t.(destroyed := t.destroyed + 1)
  }

  function Noted(t: Since, h: Hub, a: Action): Since {
    match a
    case AcceptOk(_) => SinceOpen(0)
    case AcceptErr(_, ec) => if Closes(ec) then SinceClose(0) else t
    case ReadErr(_, ec) => if Closes(ec) then SinceClose(0) else t
    case WriteErr(_, _, ec) => if Closes(ec) then SinceClose(0) else t
    case Free(k) => AfterFree(t, k in h.share)
    case _ => t
  }

  function NotedAll(t: Since, h: Hub, acts: seq<Action>): Since
    requires CanRun(h, acts)
    decreases |acts|
  {
    if acts == [] then t else NotedAll(Noted(t, h, acts[0]), Step(h, acts[0]), acts[1..])
  }

  /** The last announcement against the members there are. */
  ghost predicate Counted(t: Since, h: Hub) {
    && (t.NoneYet? ==> h.share == {} && LastStatus(h.log) == Unsaid)
    && (t.SinceOpen? ==> LastStatus(h.log) == Users(AsUnsigned(|h.share| + t.destroyed)))
    && (t.SinceClose? ==> LastStatus(h.log) == Users(AsUnsigned(|h.share| + t.destroyed - 1)))
    && (!t.NoneYet? ==> |h.share| + t.destroyed <= |h.sessions|)
  }

  lemma {:induction false} MembersFit(share: set<nat>, n: nat)
    requires forall i :: i in share ==> i < n
    ensures |share| <= n
  {
    if n > 0 {
      MembersFit(share - {n - 1}, n - 1);
    }
  }

  lemma WriteAllStatus(h: Hub, body: Body)
    ensures var r := WriteAll(h, body);
      r.share == h.share && LastStatus(r.log) == if body.Status? then Users(body.users) else LastStatus(h.log)
  {
    LastStatusSnoc(h.log, ToAll(h.mid, body));
  }

  lemma OnOpenStatus(h: Hub, k: nat)
    requires k < |h.sessions|
    ensures var r := OnOpen(h, k);
      r.share == h.share + {k} && LastStatus(r.log) == Users(AsUnsigned(|h.share + {k}|))
  {
    hide WriteAll, LastStatus, AsUnsigned;
    var h1 := Put(h, k, h.sessions[k].(joined := true, joinedAt := |h.log|)).(share := h.share + {k});
    var h2 := WriteOne(h1, k, Uid(h1.uid)).(uid := h1.uid + 1);
    WriteAllStatus(WriteOne(h2, k, AppList), Status(AsUnsigned(|h.share + {k}|)));
  }

  lemma FailStatus(h: Hub, k: nat, ec: Code)
    requires k < |h.sessions|
    ensures var r := Fail(h, k, ec);
      && r.share == h.share
      && LastStatus(r.log) == if Closes(ec) then Users(AsUnsigned(|h.share| - 1)) else LastStatus(h.log)
  {
    hide WriteAll, LastStatus, AsUnsigned;
    WriteAllStatus(Put(h, k, h.sessions[k].(closes := h.sessions[k].closes + 1)), Status(AsUnsigned(|h.share| - 1)));
  }

  lemma {:induction false} EmitEachKeepsStatus(h: Hub, k: nat, emits: seq<Emit>)
    requires k < |h.sessions|
    ensures var r := EmitEach(h, k, emits); LastStatus(r.log) == LastStatus(h.log) && r.share == h.share
    decreases |emits|
  {
    hide WriteAll, LastStatus;
    if emits != [] {
      WriteAllStatus(h, emits[0].body);
      var h1 := if emits[0].EmitAll? then WriteAll(h, emits[0].body) else WriteOne(h, k, emits[0].body);
      EmitEachKeepsStatus(h1, k, emits[1..]);
    }
  }

  lemma MessageKeepsStatus(h: Hub, k: nat, m: Inbound)
    requires k < |h.sessions|
    ensures var r := OnMessage(h, k, m); LastStatus(r.log) == LastStatus(h.log) && r.share == h.share
  {
    hide WriteAll, LastStatus, EmitEach;
    if !m.NotAnObject? {
      WriteAllStatus(h, Echo(m.text));
      if m.Dispatched? {
        EmitEachKeepsStatus(WriteAll(h, Echo(m.text)), k, m.emits);
      }
    }
  }

  /** The close callback runs. */
  predicate AnnouncesClose(a: Action) {
    (a.AcceptErr? || a.ReadErr? || a.WriteErr?) && Closes(a.ec)
  }

  /** What one handler does to the members and to the last announcement. */
  lemma StepStatus(h: Hub, a: Action)
    requires Enabled(h, a)
    ensures var r := Step(h, a);
      && r.share == (if a.AcceptOk? then h.share + {a.k} else if a.Free? then h.share - {a.k} else h.share)
      && LastStatus(r.log) ==
           (if a.AcceptOk? then Users(AsUnsigned(|h.share + {a.k}|))
            else if AnnouncesClose(a) then Users(AsUnsigned(|h.share| - 1))
            else LastStatus(h.log))
  {
    hide LastStatus, AsUnsigned, WriteAll, Fail, OnOpen, OnMessage;
    match a
    case AppBroadcast(body) => WriteAllStatus(h, body);
    case AcceptOk(k) =>
      OnOpenStatus(Put(h, k, h.sessions[k].(accepting := false, handling := true, reading := true)), k);
    case ReadOk(k, m) =>
      MessageKeepsStatus(Put(h, k, h.sessions[k].(reading := false, handling := true)), k, m);
    case AcceptErr(k, ec) =>
      FailStatus(Put(h, k, h.sessions[k].(accepting := false, handling := true)), k, ec);
    case ReadErr(k, ec) =>
      FailStatus(Put(h, k, h.sessions[k].(reading := false, handling := true)), k, ec);
    case WriteErr(k, op, ec) =>
      var q := h.sessions[k].q;
      FailStatus(Put(h, k, h.sessions[k].(q := Q.AfterOnWrite(q, op, false), handling := true)), k, ec);
    case _ =>
  }

  lemma MembersInRange(h: Hub)
    requires Inv(h)
    ensures |h.share| <= |h.sessions|
  {
    MembersFit(h.share, |h.sessions|);
  }

  lemma StepKeepsCounted(t: Since, h: Hub, a: Action)
    requires Inv(h) && Enabled(h, a) && Inv(Step(h, a)) && Counted(t, h)
    ensures Counted(Noted(t, h, a), Step(h, a))
  {
    hide Inv, Step, LastStatus, AsUnsigned, Enabled, Counted;
    var r := Step(h, a);
    StepStatus(h, a);
    MembersInRange(r);
    if a.AcceptOk? {
      OpenCounted(r);
    } else if a.Free? {
      FreeKeepsCounted(t, h, r, a.k);
    } else if AnnouncesClose(a) {
      CloseCounted(r);
    } else {
      SilentKeepsCounted(t, h, r);
    }
  }

  lemma OpenCounted(r: Hub)
    requires |r.share| <= |r.sessions| && LastStatus(r.log) == Users(AsUnsigned(|r.share|))
    ensures Counted(SinceOpen(0), r)
  {
    hide LastStatus, AsUnsigned;
  }

  lemma CloseCounted(r: Hub)
    requires |r.share| <= |r.sessions| && LastStatus(r.log) == Users(AsUnsigned(|r.share| - 1))
    ensures Counted(SinceClose(0), r)
  {
    hide LastStatus, AsUnsigned;
  }

  lemma SilentKeepsCounted(t: Since, h: Hub, r: Hub)
    requires Counted(t, h) && |r.sessions| >= |h.sessions|
    requires r.share == h.share && LastStatus(r.log) == LastStatus(h.log)
    ensures Counted(t, r)
  {
    hide LastStatus, AsUnsigned;
  }

  lemma FreeKeepsCounted(t: Since, h: Hub, r: Hub, k: nat)
    requires Counted(t, h) && |r.sessions| == |h.sessions|
    requires r.share == h.share - {k} && LastStatus(r.log) == LastStatus(h.log)
    ensures Counted(AfterFree(t, k in h.share), r)
  {
    hide LastStatus, AsUnsigned;
    if k in h.share {
      assert |h.share - {k}| == |h.share| - 1;
    } else {
      assert h.share - {k} == h.share;
    }
  }

  lemma {:induction false} RunKeepsCounted(t: Since, h: Hub, acts: seq<Action>)
    requires Inv(h) && AtRest(h) && CanRun(h, acts) && Counted(t, h)
    ensures Counted(NotedAll(t, h, acts), Run(h, acts))
    decreases |acts|
  {
    hide Inv, AtRest, Step, Enabled, Counted, Noted;
    if acts != [] {
      StepKeepsInv(h, acts[0]);
      StepKeepsRest(h, acts[0]);
      StepKeepsCounted(t, h, acts[0]);
      RunKeepsCounted(Noted(t, h, acts[0]), Step(h, acts[0]), acts[1..]);
    }
  }

  /** In every run the last announcement agrees with the number of members exactly when nobody was
      destroyed since, if it announced a join, and exactly one member was, if it announced a close. */
  lemma StatusIsCurrentIff(acts: seq<Action>)
    requires CanRun(Start(), acts) && |Run(Start(), acts).sessions| < 0x1_0000_0000
    ensures var h, t := Run(Start(), acts), NotedAll(NoneYet, Start(), acts);
      LastStatus(h.log) == Users(|h.share|) <==>
        (t.SinceOpen? && t.destroyed == 0) || (t.SinceClose? && t.destroyed == 1)
  {
    hide Run, CanRun, NotedAll, LastStatus, Inv, AtRest, Counted;
    StartIsCounted();
    RunKeepsCounted(NoneYet, Start(), acts);
    CountedIff(NotedAll(NoneYet, Start(), acts), Run(Start(), acts));
  }

  lemma StartIsCounted()
    ensures Inv(Start()) && AtRest(Start()) && Counted(NoneYet, Start())
  {
  }

  lemma CountedIff(t: Since, h: Hub)
    requires Counted(t, h) && |h.sessions| < 0x1_0000_0000
    ensures LastStatus(h.log) == Users(|h.share|) <==>
      (t.SinceOpen? && t.destroyed == 0) || (t.SinceClose? && t.destroyed == 1)
  {
    hide LastStatus;
  }

  // ---------- Two runs ----------

  lemma Nothing(h: Hub) returns (acts: seq<Action>)
    ensures acts == [] && CanRun(h, acts) && Run(h, acts) == h
  {
    acts := [];
  }

  lemma Prepend(h: Hub, a: Action, rest: seq<Action>) returns (acts: seq<Action>)
    requires Enabled(h, a) && CanRun(Step(h, a), rest)
    ensures acts == [a] + rest && CanRun(h, acts) && Run(h, acts) == Run(Step(h, a), rest)
  {
    acts := [a] + rest;
    assert acts[1..] == rest;
  }

  lemma {:induction false} RunConcat(h: Hub, a: seq<Action>, b: seq<Action>)
    requires CanRun(h, a) && CanRun(Run(h, a), b)
    ensures CanRun(h, a + b) && Run(h, a + b) == Run(Run(h, a), b)
    decreases |a|
  {
    hide Step, Enabled;
    if a == [] {
      assert a + b == b;
    } else {
      RunConcat(Step(h, a[0]), a[1..], b);
      assert (a + b)[1..] == a[1..] + b;
    }
  }

  /** A run, one action longer. */
  lemma RunSnoc(h: Hub, acts: seq<Action>, a: Action)
    requires CanRun(h, acts) && Enabled(Run(h, acts), a)
    ensures CanRun(h, acts + [a]) && Run(h, acts + [a]) == Step(Run(h, acts), a)
  {
    var last := Run(h, acts);
    var rest := Nothing(Step(last, a));
    hide CanRun, Run, Step, Enabled;
    var one := Prepend(last, a, rest);
    RunConcat(h, acts, one);
    assert one == [a];
  }

  /** A handshake that succeeds, seen from its own session. */
  lemma Opens(h: Hub, k: nat)
    requires k < |h.sessions| && h.sessions[k] == Fresh()
    ensures Enabled(h, AcceptOk(k))
    ensures var r := Step(h, AcceptOk(k)); var s := r.sessions[k];
      && r.share == h.share + {k}
      && s.reading && s.joined && !s.freed && !s.accepting && !s.handling && s.q.failures == 0
      && (forall i :: 0 <= i < |h.sessions| && i != k ==> OnlyWritten(h.sessions[i], r.sessions[i]))
  {
    hide WriteAll;
    var h1 := Put(h, k, Fresh().(accepting := false, handling := true, reading := true));
    OnOpenStatus(h1, k);
    OnOpenFrame(h1, k);
    hide OnOpen;
    assert forall i :: 0 <= i < |h.sessions| ==> OnlyWritten(Joined(h1, k).sessions[i], OnOpen(h1, k).sessions[i]);
  }

  /** What somebody who never joined can do: its handshake is aborted, and the only member, which is
      still reading, is told that there are no members. */
  lemma StrangerIsSubtracted() returns (acts: seq<Action>)
    ensures acts == [Connect, AcceptOk(0), Connect, AcceptErr(1, Aborted)]
    ensures CanRun(Start(), acts)
    ensures |Run(Start(), acts).sessions| == 2
    ensures var h := Run(Start(), acts); var s := h.sessions[0];
      && h.share == {0} && s.reading
      && s.got != [] && s.got[|s.got| - 1].body == Status(0)
      && LastStatus(h.log) == Users(0)
  {
    acts := OneMember();
    var h := Run(Start(), acts);
    MemberIsTold(h);
    hide Step, LastStatus, Run, CanRun;
    RunSnoc(Start(), acts, AcceptErr(1, Aborted));
    acts := acts + [AcceptErr(1, Aborted)];
  }

  /** One member, and a session whose handshake is outstanding. */
  lemma OneMember() returns (acts: seq<Action>)
    ensures acts == [Connect, AcceptOk(0), Connect] && CanRun(Start(), acts)
    ensures var h := Run(Start(), acts);
      && |h.sessions| == 2 && h.share == {0} && h.sessions[1] == Fresh()
      && var s := h.sessions[0]; s.reading && !s.freed && !s.accepting && s.q.failures == 0
  {
    var h1 := Step(Start(), Connect);
    Opens(h1, 0);
    var h2 := Step(h1, AcceptOk(0));
    var h3 := Step(h2, Connect);
    hide Step;
    acts := Nothing(h3);
    acts := Prepend(h2, Connect, acts);
    acts := Prepend(h1, AcceptOk(0), acts);
    acts := Prepend(Start(), Connect, acts);
  }

  lemma MemberIsTold(h: Hub)
    requires |h.sessions| == 2 && h.share == {0}
    requires h.sessions[0].reading && h.sessions[1] == Fresh()
    ensures Enabled(h, AcceptErr(1, Aborted))
    ensures var r := Step(h, AcceptErr(1, Aborted)); var s := r.sessions[0];
      && r.share == {0} && s.reading
      && s.got != [] && s.got[|s.got| - 1].body == Status(0)
      && LastStatus(r.log) == Users(0)
  {
    StepStatus(h, AcceptErr(1, Aborted));
    assert |h.share| == 1;
    hide LastStatus;
  }

  /** Nothing is left to run for session `i` but an outstanding read or handshake. */
  ghost predicate Quiescent(h: Hub, i: nat)
    requires i < |h.sessions|
  {
    !Enabled(h, RunTask(i)) && !Enabled(h, Free(i)) && forall op :: !Enabled(h, WriteOk(i, op))
  }

  /** `r` differs from `h` in what session `k` has written of what it was given. */
  ghost predicate OnlyDrained(h: Hub, r: Hub, k: nat)
    requires k < |h.sessions|
  {
    && |r.sessions| == |h.sessions| && r.share == h.share && r.log == h.log
    && (forall i :: 0 <= i < |h.sessions| && i != k ==> r.sessions[i] == h.sessions[i])
    && r.sessions[k] == h.sessions[k].(q := r.sessions[k].q)
  }

  /** A session without a failed write can write all it was given, and nothing else changes. */
  lemma {:induction false} Drain(h: Hub, k: nat) returns (acts: seq<Action>)
    requires Inv(h) && AtRest(h) && k < |h.sessions| && h.sessions[k].q.failures == 0
    ensures CanRun(h, acts)
    ensures var r := Run(h, acts);
      && Inv(r) && AtRest(r) && OnlyDrained(h, r, k)
      && r.sessions[k].q.posted == [] && r.sessions[k].q.inFlight == []
    decreases Q.Work(h.sessions[k].q)
  {
    hide Inv, AtRest, Step, Enabled, OnlyDrained, Q.Work, Q.Inv;
    if h.sessions[k].q.posted == [] && h.sessions[k].q.inFlight == [] {
      DrainedItself(h, k);
      acts := Nothing(h);
    } else {
      var a := if h.sessions[k].q.posted != [] then RunTask(k) else WriteOk(k, 0);
      DrainStep(h, k, a);
      var rest := Drain(Step(h, a), k);
      acts := Prepend(h, a, rest);
      DrainedFurther(h, Step(h, a), Run(h, acts), k);
    }
  }

  lemma DrainedItself(h: Hub, k: nat)
    requires k < |h.sessions|
    ensures OnlyDrained(h, h, k)
  {
  }

  lemma DrainedFurther(a: Hub, b: Hub, c: Hub, k: nat)
    requires k < |a.sessions| && OnlyDrained(a, b, k) && OnlyDrained(b, c, k)
    ensures OnlyDrained(a, c, k)
  {
  }

  lemma SessionQueueInv(h: Hub, k: nat)
    requires Inv(h) && k < |h.sessions|
    ensures Q.Inv(h.sessions[k].q)
  {
    assert SessionInv(h.sessions[k], k in h.share, h.log, h.mid);
  }

  lemma DrainStep(h: Hub, k: nat, a: Action)
    requires Inv(h) && AtRest(h) && k < |h.sessions| && h.sessions[k].q.failures == 0
    requires a == if h.sessions[k].q.posted != [] then RunTask(k) else WriteOk(k, 0)
    requires h.sessions[k].q.posted != [] || h.sessions[k].q.inFlight != []
    ensures Enabled(h, a)
    ensures var r := Step(h, a);
      && Inv(r) && AtRest(r) && OnlyDrained(h, r, k)
      && r.sessions[k].q.failures == 0
      && Q.Work(r.sessions[k].q) < Q.Work(h.sessions[k].q)
  {
    hide Inv, AtRest;
    var q := h.sessions[k].q;
    SessionQueueInv(h, k);
    Q.WorkDecreases(q, if a.RunTask? then Q.Execute else Q.Finish(0, true));
    StepKeepsInv(h, a);
    StepKeepsRest(h, a);
    hide Q.Inv, Q.Work;
  }

  /** When all has come to rest, the members are the sessions still reading; so the last announcement is
      the number of readers under the condition of `StatusIsCurrentIff`. */
  lemma QuiescentStatusIff(acts: seq<Action>)
    requires CanRun(Start(), acts) && |Run(Start(), acts).sessions| < 0x1_0000_0000
    requires var h := Run(Start(), acts); forall i :: 0 <= i < |h.sessions| ==> Quiescent(h, i)
    ensures var h, t := Run(Start(), acts), NotedAll(NoneYet, Start(), acts);
      var readers := set i | 0 <= i < |h.sessions| && h.sessions[i].reading;
      LastStatus(h.log) == Users(|readers|) <==>
        (t.SinceOpen? && t.destroyed == 0) || (t.SinceClose? && t.destroyed == 1)
  {
    hide Run, CanRun, NotedAll, LastStatus, Inv, AtRest, Quiescent;
    StatusIsCurrentIff(acts);
    Reachable(acts);
    RestingMembers(Run(Start(), acts));
  }

  lemma RestingMembers(h: Hub)
    requires Inv(h) && AtRest(h) && forall i :: 0 <= i < |h.sessions| ==> Quiescent(h, i)
    ensures (set i | 0 <= i < |h.sessions| && h.sessions[i].reading) == h.share
  {
    assert forall i: nat :: i in h.share ==> i < |h.sessions|;
    hide Inv, AtRest, Quiescent;
    forall i | 0 <= i < |h.sessions| ensures i in h.share <==> h.sessions[i].reading {
      RestingMember(h, i);
    }
  }

  lemma RestingMember(h: Hub, i: nat)
    requires Inv(h) && AtRest(h) && i < |h.sessions| && Quiescent(h, i)
    ensures i in h.share <==> h.sessions[i].reading
  {
    assert SessionInv(h.sessions[i], i in h.share, h.log, h.mid) && Rested(h.sessions[i]);
    assert !Enabled(h, WriteOk(i, 0));
  }

  /** The condition can fail even when all has come to rest: a session ends with an error that does not
      run the close callback, and the member that is left has last been told that there are two. */
  lemma SilentEndLeavesOldCount() returns (acts: seq<Action>)
    ensures CanRun(Start(), acts) && |Run(Start(), acts).sessions| == 2
    ensures var h := Run(Start(), acts);
      && Quiescent(h, 0) && Quiescent(h, 1)
      && h.share == {0} && h.sessions[0].reading && LastStatus(h.log) == Users(2)
  {
    var open := OneMember();
    var h := Run(Start(), open);
    SecondOpens(h);
    RunSnoc(Start(), open, AcceptOk(1));
    Reachable(open + [AcceptOk(1)]);
    var end := OneEndsSilently(Step(h, AcceptOk(1)));
    hide Step, Enabled, LastStatus, Run, CanRun;
    RunConcat(Start(), open + [AcceptOk(1)], end);
    acts := open + [AcceptOk(1)] + end;
  }

  lemma SecondOpens(h: Hub)
    requires |h.sessions| == 2 && h.share == {0} && h.sessions[1] == Fresh()
    requires var s := h.sessions[0]; s.reading && !s.freed && !s.accepting && s.q.failures == 0
    ensures Enabled(h, AcceptOk(1))
    ensures var r := Step(h, AcceptOk(1));
      && |r.sessions| == 2 && r.share == {0, 1} && LastStatus(r.log) == Users(2)
      && forall i :: 0 <= i < 2 ==> var s := r.sessions[i];
           s.reading && !s.freed && !s.accepting && s.q.failures == 0
  {
    Opens(h, 1);
    StepStatus(h, AcceptOk(1));
    assert h.share + {1} == {0, 1};
    hide Step, LastStatus;
    assert OnlyWritten(h.sessions[0], Step(h, AcceptOk(1)).sessions[0]);
  }

  lemma OneEndsSilently(h: Hub) returns (acts: seq<Action>)
    requires Inv(h) && AtRest(h) && |h.sessions| == 2 && h.share == {0, 1}
    requires forall i :: 0 <= i < 2 ==> var s := h.sessions[i];
      s.reading && !s.freed && !s.accepting && s.q.failures == 0
    ensures CanRun(h, acts) && |Run(h, acts).sessions| == 2
    ensures var r := Run(h, acts);
      Quiescent(r, 0) && Quiescent(r, 1) && r.share == {0} && r.sessions[0].reading && r.log == h.log
  {
    hide Inv, AtRest;
    var a := ReadErr(1, OtherError);
    var h1 := Step(h, a);
    StepKeepsInv(h, a);
    StepKeepsRest(h, a);
    assert h1.sessions[0] == h.sessions[0];
    assert h1.sessions[1] == h.sessions[1].(reading := false, handling := false);
    assert h1.share == h.share && h1.log == h.log;
    var drain := Drain(h1, 1);
    var h2 := Run(h1, drain);
    var end := LastOneLeaves(h2);
    hide Step, Enabled, Quiescent;
    RunConcat(h1, drain, end);
    acts := Prepend(h, a, drain + end);
  }

  lemma LastOneLeaves(h: Hub) returns (acts: seq<Action>)
    requires Inv(h) && AtRest(h) && |h.sessions| == 2 && h.share == {0, 1}
    requires h.sessions[0].reading && h.sessions[0].q.failures == 0 && !h.sessions[0].accepting
    requires !h.sessions[1].freed && Refs(h.sessions[1]) == 0
    ensures CanRun(h, acts) && |Run(h, acts).sessions| == 2
    ensures var r := Run(h, acts);
      Quiescent(r, 0) && Quiescent(r, 1) && r.share == {0} && r.sessions[0].reading && r.log == h.log
  {
    hide Inv, AtRest;
    var h1 := Step(h, Free(1));
    StepKeepsInv(h, Free(1));
    StepKeepsRest(h, Free(1));
    assert h1.share == {0};
    assert h1.sessions[0] == h.sessions[0] && h1.sessions[1].freed && Refs(h1.sessions[1]) == 0;
    var drain := Drain(h1, 0);
    hide Step, Run, CanRun;
    acts := Prepend(h, Free(1), drain);
  }
}
