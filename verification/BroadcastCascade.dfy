/**
 The disconnect cascade. Closing a session broadcasts to every member, the closing one included,
 and each of those broadcasts posts tasks to sessions that may be closing too. The cascade still
 ends: a session's read chain and write chain each fail at most once.
 */
module BroadcastCascade {
  import Q = WriteQueue
  import opened Broadcast
  import opened BroadcastFrame
  import opened BroadcastOrder

  /** The chains of a session that can still fail: reading (or accepting), and writing. */
  function Chains(s: SessionState): nat {
    (if s.accepting || s.reading then 1 else 0) + (if s.q.failures == 0 then 1 else 0)
  }

  /** Close callbacks already run plus chains that may still run one. No handler raises it. */
  function Budget(s: SessionState): nat {
    s.closes + Chains(s)
  }

  lemma OwnKeepsBudget(h: Hub, a: Action)
    requires HasSubject(a) && Enabled(h, a) && Wellformed(h.sessions[a.k])
    ensures Budget(Own(h, a)) <= Budget(h.sessions[a.k])
  {
  }

  /** The part of the invariant that the accounting needs. */
  ghost predicate Wellformed(s: SessionState) {
    && Q.Inv(s.q)
    && !(s.accepting && s.reading)
    && (s.accepting ==> s.q == Q.Empty())
    && (s.freed ==> Refs(s) == 0)
  }

  lemma InvWellformed(h: Hub, k: nat)
    requires Inv(h) && AtRest(h) && k < |h.sessions|
    ensures Wellformed(h.sessions[k]) && Rested(h.sessions[k])
  {
    assert SessionInv(h.sessions[k], k in h.share, h.log, h.mid);
  }

  lemma StepKeepsBudget(h: Hub, a: Action, i: nat)
    requires Inv(h) && AtRest(h) && Enabled(h, a) && i < |h.sessions|
    ensures Budget(Step(h, a).sessions[i]) <= Budget(h.sessions[i])
  {
    hide Inv, Own, Step;
    StepFrame(h, a, i);
    if HasSubject(a) && a.k == i {
      InvWellformed(h, i);
      OwnKeepsBudget(h, a);
    }
  }

  ghost predicate WithinBudget(h: Hub) {
    forall i :: 0 <= i < |h.sessions| ==> Budget(h.sessions[i]) <= 2
  }

  lemma StepKeepsWithinBudget(h: Hub, a: Action)
    requires Inv(h) && AtRest(h) && Enabled(h, a) && WithinBudget(h)
    ensures WithinBudget(Step(h, a))
  {
    var h1 := Step(h, a);
    if a.Connect? {
      assert h1.sessions[|h.sessions|] == Fresh();
    }
    hide Inv, Step;
    forall i | 0 <= i < |h1.sessions| ensures Budget(h1.sessions[i]) <= 2 {
      if i < |h.sessions| {
        StepKeepsBudget(h, a, i);
      }
    }
  }

  lemma {:induction false} RunKeepsBudget(h: Hub, acts: seq<Action>)
    requires Inv(h) && AtRest(h) && CanRun(h, acts) && WithinBudget(h)
    ensures WithinBudget(Run(h, acts))
    decreases |acts|
  {
    hide Inv, AtRest, Step, WithinBudget;
    if acts != [] {
      StepKeepsInv(h, acts[0]);
      StepKeepsRest(h, acts[0]);
      StepKeepsWithinBudget(h, acts[0]);
      RunKeepsBudget(Step(h, acts[0]), acts[1..]);
    }
  }

  /** The close callback runs at most twice for any session, in any run. */
  lemma ClosesAtMostTwice(acts: seq<Action>, k: nat)
    requires CanRun(Start(), acts) && k < |Run(Start(), acts).sessions|
    ensures Run(Start(), acts).sessions[k].closes <= 2
  {
    RunKeepsBudget(Start(), acts);
  }

  // ---------- Termination ----------

  /** No new input: no connection, no message read, no broadcast from an app. */
  predicate Quiet(a: Action) {
    !a.Connect? && !a.ReadOk? && !a.AppBroadcast?
  }

  /** What one session can still do, with `n` sessions in the hub: its queue's own work, its two
      chains (each may broadcast once), its handshake (two messages and a broadcast) and its destruction. */
  function Weight(s: SessionState, n: nat): nat {
    Q.Work(s.q)
    + (if s.accepting || s.reading then 2 * n + 1 else 0)
    + (if s.q.failures == 0 then 2 * n + 1 else 0)
    + (if s.accepting then 2 * n + 5 else 0)
    + (if s.freed then 0 else 1)
  }

  function TotalWeight(ss: seq<SessionState>, n: nat): nat {
    if ss == [] then 0 else Weight(ss[0], n) + TotalWeight(ss[1..], n)
  }

  function Potential(h: Hub): nat {
    TotalWeight(h.sessions, |h.sessions|)
  }

  lemma {:induction false} TotalWeightPut(ss: seq<SessionState>, k: nat, s: SessionState, n: nat)
    requires k < |ss|
    ensures TotalWeight(ss[k := s], n) + Weight(ss[k], n) == TotalWeight(ss, n) + Weight(s, n)
  {
    if k == 0 {
      assert ss[k := s][1..] == ss[1..];
    } else {
      assert ss[k := s][1..] == ss[1..][k - 1 := s];
      TotalWeightPut(ss[1..], k - 1, s, n);
    }
  }

  /** Raising every weight by at most `d`, and that of session `k` by at most `e` more, raises the
      total by at most `d` for each session plus `e`. */
  lemma {:induction false} TotalWeightUpTo(ss: seq<SessionState>, tt: seq<SessionState>, k: int, d: nat, e: nat, n: nat)
    requires |ss| == |tt|
    requires forall i :: 0 <= i < |ss| ==> Weight(tt[i], n) <= Weight(ss[i], n) + d + (if i == k then e else 0)
    ensures TotalWeight(tt, n) <= TotalWeight(ss, n) + d * |ss| + (if 0 <= k < |ss| then e else 0)
    decreases |ss|
  {
    hide Weight;
    if ss != [] {
      forall i | 0 <= i < |ss[1..]|
        ensures Weight(tt[1..][i], n) <= Weight(ss[1..][i], n) + d + (if i == k - 1 then e else 0)
      {
        assert Weight(tt[i + 1], n) <= Weight(ss[i + 1], n) + d + (if i + 1 == k then e else 0);
      }
      TotalWeightUpTo(ss[1..], tt[1..], k - 1, d, e, n);
      assert d * |ss| == d + d * |ss[1..]|;
    }
  }

  /** What the handler of `a` leaves its own session able to do, sends excluded. */
  lemma OwnWeight(h: Hub, a: Action, n: nat)
    requires HasSubject(a) && Quiet(a) && Enabled(h, a)
    requires Wellformed(h.sessions[a.k]) && Rested(h.sessions[a.k])
    ensures Weight(Own(h, a), n) + Sends(a, n) < Weight(h.sessions[a.k], n)
  {
    if a.RunTask? || a.WriteOk? || a.WriteErr? {
      OwnQueueWeight(h, a, n);
    } else {
      hide Q.Work;
      assert Own(h, a).q == h.sessions[a.k].q;
    }
  }

  lemma OwnQueueWeight(h: Hub, a: Action, n: nat)
    requires a.RunTask? || a.WriteOk? || a.WriteErr?
    requires Enabled(h, a) && Wellformed(h.sessions[a.k])
    ensures Weight(Own(h, a), n) + Sends(a, n) < Weight(h.sessions[a.k], n)
  {
    hide Q.Inv, Q.Work, Q.AfterWriting, Q.AfterOnWrite;
    var q := h.sessions[a.k].q;
    match a {
      case RunTask(_) => QueueWorks(q, Q.Execute);
      case WriteOk(_, op) => QueueWorks(q, Q.Finish(op, true));
      case WriteErr(_, op, _) => QueueWorks(q, Q.Finish(op, false));
    }
  }

  lemma QueueWorks(q: Q.Queue<Msg>, a: Q.Action<Msg>)
    requires Q.Inv(q) && Q.Enabled(q, a) && !a.Submit?
    ensures var r := Q.Step(q, a);
      && Q.Work(r) < Q.Work(q)
      && r.failures == q.failures + (if a.Finish? && !a.ok then 1 else 0)
    ensures a.Finish? ==> q.failures == 0
  {
    Q.WorkDecreases(q, a);
  }

  /** An upper bound on what the sends of a quiet handler add to all queues together. */
  function Sends(a: Action, n: nat): nat {
    match a
    case AcceptOk(_) => 2 * n + 4
    case AcceptErr(_, _) => 2 * n
    case ReadErr(_, _) => 2 * n
    case WriteErr(_, _, _) => 2 * n
    case _ => 0
  }

  /** How many tasks a quiet handler posts to session `i`. */
  function Posts(a: Action, i: nat): nat {
    match a
    case AcceptOk(k) => if i == k then 3 else 1
    case AcceptErr(_, _) => 1
    case ReadErr(_, _) => 1
    case WriteErr(_, _, _) => 1
    case _ => 0
  }

  lemma FailPosts(h: Hub, k: nat, t: SessionState, ec: Code, i: nat)
    requires k < |h.sessions| && i < |h.sessions|
    ensures |Return(Fail(Put(h, k, t), k, ec), k).sessions| == |h.sessions|
    ensures var s := if i == k then t else h.sessions[i];
      |Return(Fail(Put(h, k, t), k, ec), k).sessions[i].q.posted| <= |s.q.posted| + 1
  {
  }

  lemma StepPosts(h: Hub, a: Action, i: nat)
    requires Quiet(a) && Enabled(h, a) && i < |h.sessions|
    ensures var s := if i == a.k then Own(h, a) else h.sessions[i];
      |Step(h, a).sessions[i].q.posted| <= |s.q.posted| + Posts(a, i)
  {
    match a
    case AcceptOk(k) =>
      hide Fail;
    case AcceptErr(k, ec) =>
      FailPosts(h, k, h.sessions[k].(accepting := false, handling := true), ec, i);
      hide Fail;
    case ReadErr(k, ec) =>
      FailPosts(h, k, h.sessions[k].(reading := false, handling := true), ec, i);
      hide Fail;
    case WriteErr(k, op, ec) =>
      FailPosts(h, k, h.sessions[k].(q := Q.AfterOnWrite(h.sessions[k].q, op, false), handling := true), ec, i);
      hide Fail;
    case RunTask(k) =>
    case WriteOk(k, op) =>
    case Free(k) =>
  }

  lemma WeightOfWritten(s: SessionState, t: SessionState, posts: nat, n: nat)
    requires OnlyWritten(s, t) && |t.q.posted| <= |s.q.posted| + posts
    ensures Weight(t, n) <= Weight(s, n) + 2 * posts
  {
  }

  /** The weights after a quiet handler, against the hub with only its own session updated. */
  lemma StepWeights(h: Hub, a: Action, i: nat, n: nat)
    requires AtRest(h) && Quiet(a) && Enabled(h, a) && i < |h.sessions|
    ensures var s := if i == a.k then Own(h, a) else h.sessions[i];
      Weight(Step(h, a).sessions[i], n) <= Weight(s, n) + 2 * Posts(a, i)
  {
    hide Own, Step, Weight;
    var s := if i == a.k then Own(h, a) else h.sessions[i];
    assert Rested(h.sessions[i]);
    StepFrame(h, a, i);
    StepPosts(h, a, i);
    WeightOfWritten(s, Step(h, a).sessions[i], Posts(a, i), n);
  }

  /** Every quiet handler lowers the potential, whatever it broadcasts. */
  lemma PotentialDecreases(h: Hub, a: Action)
    requires Inv(h) && AtRest(h) && Quiet(a) && Enabled(h, a)
    ensures |Step(h, a).sessions| == |h.sessions| && Potential(Step(h, a)) < Potential(h)
  {
    hide Inv, Own, Step, Weight, TotalWeight;
    var n := |h.sessions|;
    var r := Step(h, a);
    InvWellformed(h, a.k);
    OwnWeight(h, a, n);
    var own := Own(h, a);
    var ss := h.sessions[a.k := own];
    TotalWeightPut(h.sessions, a.k, own, n);
    var d := 2 * Posts(a, a.k + 1);
    var e := if a.AcceptOk? then 4 else 0;
    forall i | 0 <= i < n ensures Weight(r.sessions[i], n) <= Weight(ss[i], n) + d + (if i == a.k then e else 0) {
      StepWeights(h, a, i, n);
    }
    TotalWeightUpTo(ss, r.sessions, a.k, d, e, n);
    assert d * n + e == Sends(a, n);
  }

  lemma {:induction false} QuietRunLowersPotential(h: Hub, acts: seq<Action>)
    requires Inv(h) && AtRest(h) && CanRun(h, acts)
    requires forall i :: 0 <= i < |acts| ==> Quiet(acts[i])
    ensures |acts| + Potential(Run(h, acts)) <= Potential(h)
    decreases |acts|
  {
    if acts != [] {
      PotentialDecreases(h, acts[0]);
      StepKeepsInv(h, acts[0]);
      StepKeepsRest(h, acts[0]);
      hide Inv, AtRest, Step, Potential;
      QuietRunLowersPotential(Step(h, acts[0]), acts[1..]);
    }
  }

  /** Some run leads here. */
  ghost predicate Arises(h: Hub) {
    exists past :: CanRun(Start(), past) && Run(Start(), past) == h
  }

  /** With no new input the hub quiesces: after any past, every run of handlers is at most
      `Potential` long, whatever fails, with whatever error, in whatever order. */
  lemma CascadeTerminates(h: Hub, future: seq<Action>)
    requires Arises(h) && CanRun(h, future)
    requires forall i :: 0 <= i < |future| ==> Quiet(future[i])
    ensures |future| <= Potential(h)
  {
    var past :| CanRun(Start(), past) && Run(Start(), past) == h;
    Reachable(past);
    QuietRunLowersPotential(h, future);
  }

  /** Where the cascade ends: when only outstanding reads and handshakes are left, the members are
      exactly the sessions still reading, and each has everything it was given on its wire unless
      one of its writes failed. */
  lemma QuiescentState(acts: seq<Action>, i: nat)
    requires CanRun(Start(), acts)
    requires i < |Run(Start(), acts).sessions|
    requires var h := Run(Start(), acts);
      && !Enabled(h, RunTask(i))
      && !Enabled(h, Free(i))
      && (forall op :: !Enabled(h, WriteOk(i, op)))
    ensures var h := Run(Start(), acts); var s := h.sessions[i];
      && (i in h.share <==> s.reading)
      && (s.q.failures == 0 ==> s.q.wire == s.q.submitted)
      && (s.reading && s.q.failures == 0 ==> s.joinedAt <= |h.log| && Broadcasts(s.q.wire) == h.log[s.joinedAt..])
  {
    var h := Run(Start(), acts);
    Reachable(acts);
    QuiescentSession(h, i);
  }

  lemma QuiescentSession(h: Hub, i: nat)
    requires Inv(h) && AtRest(h) && i < |h.sessions|
    requires !Enabled(h, RunTask(i)) && !Enabled(h, Free(i)) && !Enabled(h, WriteOk(i, 0))
    ensures var s := h.sessions[i];
      && (i in h.share <==> s.reading)
      && (s.q.failures == 0 ==> s.q.wire == s.q.submitted)
      && (s.reading && s.q.failures == 0 ==>
            s.joinedAt <= |h.log| && Broadcasts(s.q.wire) == h.log[s.joinedAt..])
  {
    hide Broadcasts, Increasing;
    var s := h.sessions[i];
    assert SessionInv(s, i in h.share, h.log, h.mid) && Rested(s);
    assert s.q.wire + [] + [] == s.q.wire;
  }
}
