/**
 What the container reaches of a session of the TCP server: which of its requests arrive there, what the
 closing of the listener comes to, and the session that opens after that.
 */
module TcpRequests {
  import Q = WriteQueue
  import opened TcpServer

  /** Closing the listener is the container's last operation on it. */
  ghost predicate ReachedInv(s: SessionState) {
    && (ClosingListener in s.site.reached ==> !s.site.registered || s.site.operation.Erasing?)
    && (s.site.operation.Copied? || s.site.operation.Erasing? ==> s.site.registered)
  }

  lemma StepKeepsReached(s: SessionState, a: Action, ssl: bool)
    requires Enabled(s, a) && ReachedInv(s)
    ensures var r := Step(s, a, ssl);
      && ReachedInv(r) && s.site.reached <= r.site.reached
      && (ClosingListener in r.site.reached && ClosingListener !in s.site.reached ==>
            s.site.operation == Copied(ClosingListener, true) && a == Reach)
  {
    hide Q.AfterWrite, SessionStep;
    if !IsContainers(a) {
      SessionFrame(s, a, ssl);
    } else if a.Reach? {
      assert (s.site.reached + [s.site.operation.request])[|s.site.reached|] == s.site.operation.request;
    }
  }

  lemma {:induction false} RunKeepsReached(s: SessionState, acts: seq<Action>, ssl: bool)
    requires CanRun(s, acts, ssl) && ReachedInv(s)
    ensures var r := Run(s, acts, ssl); ReachedInv(r) && s.site.reached <= r.site.reached
    decreases |acts|
  {
    hide Step, Enabled, ReachedInv;
    if acts != [] {
      StepKeepsReached(s, acts[0], ssl);
      RunKeepsReached(Step(s, acts[0], ssl), acts[1..], ssl);
    }
  }

  /** While the container is about to come to the session, its operation stays what it is. */
  lemma {:induction false} OperationStays(s: SessionState, acts: seq<Action>, ssl: bool)
    requires CanRun(s, acts, ssl) && ReachedInv(s)
    requires s.site.operation.Copied?
    requires forall i :: 0 <= i < |acts| ==>
      !acts[i].Reach? && (s.site.operation.request.ClosingListener? || !acts[i].Skip?)
    ensures var r := Run(s, acts, ssl); r.site.operation == s.site.operation && r.site.reached == s.site.reached
    decreases |acts|
  {
    if acts != [] {
      StepKeepsReached(s, acts[0], ssl);
      OperationStep(s, acts[0], ssl);
      hide Step, Enabled, ReachedInv;
      OperationStays(Step(s, acts[0], ssl), acts[1..], ssl);
    }
  }

  lemma OperationStep(s: SessionState, a: Action, ssl: bool)
    requires Enabled(s, a) && !a.Reach? && s.site.operation.Copied?
    requires s.site.operation.request.ClosingListener? || !a.Skip?
    ensures Step(s, a, ssl).site.operation == s.site.operation && Step(s, a, ssl).site.reached == s.site.reached
  {
    hide Q.AfterWrite, SessionStep, AfterRequest;
    if !IsContainers(a) {
      SessionFrame(s, a, ssl);
    }
  }

  /** Once the listener is being erased, its closing asks nobody else. */
  lemma {:induction false} ClosingIsOver(s: SessionState, acts: seq<Action>, ssl: bool)
    requires CanRun(s, acts, ssl) && ReachedInv(s) && (s.site.operation.Erasing? || !s.site.registered)
    ensures ClosingListener in Run(s, acts, ssl).site.reached <==> ClosingListener in s.site.reached
    decreases |acts|
  {
    if acts != [] {
      StepKeepsReached(s, acts[0], ssl);
      ClosingStep(s, acts[0], ssl);
      hide Step, Enabled, ReachedInv;
      ClosingIsOver(Step(s, acts[0], ssl), acts[1..], ssl);
    }
  }

  lemma ClosingStep(s: SessionState, a: Action, ssl: bool)
    requires Enabled(s, a) && ReachedInv(s) && (s.site.operation.Erasing? || !s.site.registered)
    ensures var r := Step(s, a, ssl);
      (r.site.operation.Erasing? || !r.site.registered) && r.site.reached == s.site.reached
  {
    hide Q.AfterWrite, SessionStep, AfterRequest;
    if !IsContainers(a) {
      SessionFrame(s, a, ssl);
    }
  }

  /** In every run in which the listener is closed: the closing asks a session to close if and only if
      it was a member when the set was copied, and was still referenced when its turn came. When nothing
      comes in between, as on a single thread, that is if and only if it was a member. */
  lemma ClosingAsksIff(before: seq<Action>, between: seq<Action>, after: seq<Action>, ssl: bool)
    requires CanRun(Fresh(), before, ssl) && Enabled(Run(Fresh(), before, ssl), Copy(ClosingListener))
    requires CanRun(Step(Run(Fresh(), before, ssl), Copy(ClosingListener), ssl), between, ssl)
    requires forall i :: 0 <= i < |between| ==> !between[i].Reach?
    requires var t := Run(Step(Run(Fresh(), before, ssl), Copy(ClosingListener), ssl), between, ssl);
      Enabled(t, Reach) && CanRun(Step(t, Reach, ssl), after, ssl)
    ensures var s := Run(Fresh(), before, ssl);
      var t := Run(Step(s, Copy(ClosingListener), ssl), between, ssl);
      var asked := ClosingListener in Run(Step(t, Reach, ssl), after, ssl).site.reached;
      && (asked <==> s.member && Refs(t) > 0)
      && (between == [] ==> (asked <==> s.member))
  {
    var s := Run(Fresh(), before, ssl);
    var c := Step(s, Copy(ClosingListener), ssl);
    var t := Run(c, between, ssl);
    RunKeepsReached(Fresh(), before, ssl);
    NoDanglingMember(before, ssl);
    StepKeepsReached(s, Copy(ClosingListener), ssl);
    OperationStays(c, between, ssl);
    RunKeepsReached(c, between, ssl);
    StepKeepsReached(t, Reach, ssl);
    ReachAsks(t, ssl);
    ClosingIsOver(Step(t, Reach, ssl), after, ssl);
    hide Run, CanRun;
  }

  /** In every run: when the container, having copied the set, comes to a session, its request arrives there
      if and only if the session was a member then and is still referenced now. */
  lemma RequestArrivesIff(before: seq<Action>, request: Request, between: seq<Action>, ssl: bool)
    requires CanRun(Fresh(), before, ssl) && Enabled(Run(Fresh(), before, ssl), Copy(request))
    requires CanRun(Step(Run(Fresh(), before, ssl), Copy(request), ssl), between, ssl)
    requires forall i :: 0 <= i < |between| ==> !between[i].Reach? && !between[i].Skip?
    ensures var s := Run(Fresh(), before, ssl);
      var t := Run(Step(s, Copy(request), ssl), between, ssl);
      && Enabled(t, Reach)
      && Step(t, Reach, ssl).site.reached == s.site.reached + (if s.member && Refs(t) > 0 then [request] else [])
      && (between == [] && s.member ==> Refs(t) > 0)
  {
    hide Run, CanRun, Step, Enabled, Refs, ReachedInv;
    var s := Run(Fresh(), before, ssl);
    FreshReached();
    RunKeepsReached(Fresh(), before, ssl);
    NoDanglingMember(before, ssl);
    CopySees(s, request, ssl);
    OperationStays(Step(s, Copy(request), ssl), between, ssl);
    RunNothing(Step(s, Copy(request), ssl), ssl);
    RequestArrives(Run(Step(s, Copy(request), ssl), between, ssl), ssl);
  }

  lemma FreshReached()
    ensures ReachedInv(Fresh())
  {
  }

  lemma RunNothing(s: SessionState, ssl: bool)
    ensures CanRun(s, [], ssl) && Run(s, [], ssl) == s
  {
  }

  lemma CopySees(s: SessionState, request: Request, ssl: bool)
    requires Enabled(s, Copy(request)) && ReachedInv(s)
    ensures var c := Step(s, Copy(request), ssl);
      && ReachedInv(c) && c.site.operation == Copied(request, s.member)
      && c.site.reached == s.site.reached && Refs(c) == Refs(s)
  {
  }

  lemma RequestArrives(t: SessionState, ssl: bool)
    requires t.site.operation.Copied?
    ensures Enabled(t, Reach)
    ensures Step(t, Reach, ssl).site.reached ==
      t.site.reached + (if t.site.operation.among && Refs(t) > 0 then [t.site.operation.request] else [])
  {
    hide Refs, Q.AfterWrite;
  }

  lemma ReachAsks(t: SessionState, ssl: bool)
    requires t.site.operation.Copied? && t.site.operation.request.ClosingListener? && ClosingListener !in t.site.reached
    ensures var r := Step(t, Reach, ssl);
      r.site.operation.Erasing? && (ClosingListener in r.site.reached <==> t.site.operation.among && Refs(t) > 0)
  {
    hide Refs;
    assert (t.site.reached + [ClosingListener])[|t.site.reached|] == ClosingListener;
  }

  /** Once the listener is erased the session is out of reach for ever: no status lists it, and no
      operation of the container comes to it. */
  lemma {:induction false} ErasedIsForever(s: SessionState, acts: seq<Action>, ssl: bool)
    requires CanRun(s, acts, ssl) && ReachedInv(s) && !s.site.registered
    ensures var r := Run(s, acts, ssl);
      && !r.site.registered && !Listed(r)
      && r.site.reached == s.site.reached && r.q.submitted == s.q.submitted
      && s.told <= r.told && (forall i :: |s.told| <= i < |r.told| ==> !r.told[i])
    decreases |acts|
  {
    if acts != [] {
      var t := Step(s, acts[0], ssl);
      StepKeepsReached(s, acts[0], ssl);
      ErasedStep(s, acts[0], ssl);
      hide Step, Enabled, ReachedInv;
      ErasedIsForever(t, acts[1..], ssl);
    }
  }

  lemma ErasedStep(s: SessionState, a: Action, ssl: bool)
    requires Enabled(s, a) && ReachedInv(s) && !s.site.registered
    ensures var r := Step(s, a, ssl);
      && !r.site.registered && r.site.reached == s.site.reached && r.q.submitted == s.q.submitted
      && (r.told == s.told || r.told == s.told + [false])
  {
    hide SessionStep, AfterRequest;
    if !IsContainers(a) {
      SessionFrame(s, a, ssl);
    }
  }

  /** Such a session can be open all the same: it was accepted before its listener was closed and opens
      after that. It is a member, reads, has not failed, was not asked to close, and the status it
      sent when it opened did not list it. */
  lemma OrphanOpens(ssl: bool) returns (acts: seq<Action>)
    ensures acts == [Copy(ClosingListener), Reach, EraseListener, Open, OpeningStatus, StartRead]
    ensures CanRun(Fresh(), acts, ssl)
    ensures var s := Run(Fresh(), acts, ssl);
      && ReachedInv(s) && !s.site.registered
      && s.member && s.reading && s.handler.NoHandler? && s.q.failures == 0 && s.closings == 0
      && s.site.reached == [] && s.told == [false]
  {
    acts := ListenerCloses(ssl);
    var s := Fresh().(site := Site(false, NoOperation, []));
    var opens := OpensUnseen(s, ssl);
    hide Step, Enabled;
    RunConcat(Fresh(), acts, opens, ssl);
    acts := acts + opens;
  }

  lemma ListenerCloses(ssl: bool) returns (acts: seq<Action>)
    ensures acts == [Copy(ClosingListener), Reach, EraseListener] && CanRun(Fresh(), acts, ssl)
    ensures Run(Fresh(), acts, ssl) == Fresh().(site := Site(false, NoOperation, []))
  {
    var s1 := Fresh().(site := Site(true, Copied(ClosingListener, false), []));
    var s2 := Fresh().(site := Site(true, Erasing, []));
    assert Step(Fresh(), Copy(ClosingListener), ssl) == s1;
    assert Step(s1, Reach, ssl) == s2;
    acts := [];
    acts := Prepend(s2, EraseListener, acts, ssl);
    acts := Prepend(s1, Reach, acts, ssl);
    acts := Prepend(Fresh(), Copy(ClosingListener), acts, ssl);
  }

  lemma OpensUnseen(s: SessionState, ssl: bool) returns (acts: seq<Action>)
    requires s.handshaking && s.handler.NoHandler? && !s.site.registered && s.told == []
    ensures acts == [Open, OpeningStatus, StartRead] && CanRun(s, acts, ssl)
    ensures var r := Run(s, acts, ssl);
      && r.site == s.site && r.q == s.q && r.closings == s.closings
      && r.member && r.reading && r.handler.NoHandler? && r.told == [false]
  {
    var s1 := Step(s, Open, ssl);
    var s2 := Step(s1, OpeningStatus, ssl);
    acts := [];
    acts := Prepend(s2, StartRead, acts, ssl);
    acts := Prepend(s1, OpeningStatus, acts, ssl);
    acts := Prepend(s, Open, acts, ssl);
  }

  lemma {:induction false} RunConcat(s: SessionState, a: seq<Action>, b: seq<Action>, ssl: bool)
    requires CanRun(s, a, ssl) && CanRun(Run(s, a, ssl), b, ssl)
    ensures CanRun(s, a + b, ssl) && Run(s, a + b, ssl) == Run(Run(s, a, ssl), b, ssl)
    decreases |a|
  {
    hide Step, Enabled;
    if a == [] {
      assert a + b == b;
    } else {
      RunConcat(Step(s, a[0], ssl), a[1..], b, ssl);
      assert (a + b)[1..] == a[1..] + b;
    }
  }
}
