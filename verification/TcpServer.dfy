/**
 A session of the TCP server, its place in its listener's membership set, and its listener's place in
 the container. Unlike the WebSocket session it does not leave in its destructor: `on_open` joins and
 only `on_close` leaves, so a member would dangle if some way of ending a session missed `on_close`.
 The container reaches a session only through a listener that is registered, and its status messages
 list the members of registered listeners only.

 Sessions run on their own strands and touch only their own membership, so one session is modelled,
 with its handlers and the container's operations cut at every point where another thread could
 look at the set. The container's operations do not overlap each other.
 */
module TcpServer {
  import Q = WriteQueue
  import S = Stream

  datatype Code = Aborted | Eof | Truncated | OtherError

  /** The handler running on the session's strand, if any; it holds a reference. */
  datatype Handler = NoHandler | Joining | Opening | InRead | Failing(ec: Code)

  /** What the container does to the sessions of a listener, each through `exec_to_all`. */
  datatype Request = Writing(data: S.Bytes) | ClosingClient | ClosingListener

  /** The container's operation on the listener: it has copied the set, with the session in it or not,
      or it has asked all members to close and is about to erase the listener. */
  datatype Operation = NoOperation | Copied(request: Request, among: bool) | Erasing

  /** The listener and the container, seen from the session. */
  datatype Site = Site(
    registered: bool,        // the container's map holds the listener
    operation: Operation,
    reached: seq<Request>)   // what the container's operations did to the session

  datatype SessionState = SessionState(
    q: Q.Queue<S.Bytes>,
    handshaking: bool,   // not open yet: its accept or its handshake is outstanding
    reading: bool,       // a read is outstanding
    handler: Handler,
    closings: nat,       // posted `closing` tasks
    member: bool,        // the listener's set holds a pointer to the session
    joined: bool,
    closes: nat,         // calls of `on_close`
    errors: nat,         // calls of `on_error`
    freed: bool,
    site: Site,
    told: seq<bool>,     // for each status message it sent: whether that listed the session itself
    got: seq<S.Bytes>)   // what `read_handler` was called with

  function Fresh(): SessionState {
    SessionState(Q.Empty(), true, false, NoHandler, 0, false, false, 0, 0, false,
                 Site(true, NoOperation, []), [], [])
  }

  function Refs(s: SessionState): nat {
    (if s.handshaking then 1 else 0) + (if s.reading then 1 else 0) + (if s.handler.NoHandler? then 0 else 1)
    + s.closings + |s.q.posted| + |s.q.inFlight|
  }

  /** `fail`: every branch calls `on_close`; the last one also reports the error and posts a close. */
  function AfterFail(s: SessionState, ec: Code, ssl: bool): SessionState {
    if ec == Aborted || ec == Eof then AfterClose(s)
    else if ssl && ec == Truncated then AfterClose(s)
    else AfterClose(s.(errors := s.errors + 1)).(closings := s.closings + 1)
  }

  /** Whether a status message sent now lists the session: it goes through the registered listeners
      and asks each for its members. */
  predicate Listed(s: SessionState) {
    s.site.registered && s.member
  }

  function SendStatus(s: SessionState): SessionState {
    s.(told := s.told + [Listed(s)])
  }

  /** `on_close`: leave, then send the status. */
  function AfterClose(s: SessionState): SessionState {
    SendStatus(s.(member := false, closes := s.closes + 1))
  }

  /** A request arrives at the session. */
  function AfterRequest(s: SessionState, r: Request): SessionState {
    var t := s.(site := s.site.(reached := s.site.reached + [r]));
    if r.Writing? then t.(q := Q.AfterWrite(s.q, r.data)) else t.(closings := s.closings + 1)
  }

  datatype Action =
    | Open                        // handshake done: do_accept, as far as the join of on_open
    | OpeningStatus               // the status on_open sends
    | HandshakeErr(ec: Code)
    | StartRead                   // the rest of do_accept
    | ReadOk(data: S.Bytes)
    | Rearm                       // the rest of on_read
    | ReadErr(ec: Code)
    | WriteOk(op: nat)
    | WriteErr(op: nat, ec: Code)
    | FailRuns
    | RunWriting
    | RunClosing
    | Free
    | Copy(request: Request)      // the container finds the listener and copies its set
    | Reach                       // it comes to the session, if that is in the copy and still referenced
    | Skip                        // it leaves the session out, whose endpoint is not named
    | EraseListener               // the rest of closing the listener

  /** A strand runs one handler at a time. */
  predicate Enabled(s: SessionState, a: Action) {
    match a
    case Open => s.handshaking && s.handler.NoHandler?
    case HandshakeErr(_) => s.handshaking && s.handler.NoHandler?
    case StartRead => s.handler.Opening?
    case ReadOk(_) => s.reading && s.handler.NoHandler?
    case Rearm => s.handler.InRead?
    case ReadErr(_) => s.reading && s.handler.NoHandler?
    case WriteOk(op) => op < |s.q.inFlight| && s.q.queue != [] && s.handler.NoHandler?
    case WriteErr(op, _) => op < |s.q.inFlight| && s.handler.NoHandler?
    case OpeningStatus => s.handler.Joining?
    case FailRuns => s.handler.Failing?
    case RunWriting => s.q.posted != [] && s.handler.NoHandler?
    case RunClosing => s.closings > 0 && s.handler.NoHandler?
    case Free => Refs(s) == 0 && !s.freed
    case Copy(_) => s.site.registered && s.site.operation.NoOperation?
    case Reach => s.site.operation.Copied?
    case Skip => s.site.operation.Copied? && !s.site.operation.request.ClosingListener?
    case EraseListener => s.site.operation.Erasing?
  }

  /** The actions that are the container's. */
  predicate IsContainers(a: Action) {
    a.Copy? || a.Reach? || a.Skip? || a.EraseListener?
  }

  function Step(s: SessionState, a: Action, ssl: bool): SessionState
    requires Enabled(s, a)
  {
    if IsContainers(a) then ContainerStep(s, a) else SessionStep(s, a, ssl)
  }

  function SessionStep(s: SessionState, a: Action, ssl: bool): SessionState
    requires Enabled(s, a) && !IsContainers(a)
  {
    match a
    case Open => s.(handshaking := false, handler := Joining, member := true, joined := true)
    case OpeningStatus => SendStatus(s).(handler := Opening)
    case HandshakeErr(ec) => s.(handshaking := false, handler := Failing(ec))
    case StartRead => s.(handler := NoHandler, reading := true)
    case ReadOk(data) => s.(reading := false, handler := InRead, got := s.got + [data])
    case Rearm => s.(handler := NoHandler, reading := true)
    case ReadErr(ec) => s.(reading := false, handler := Failing(ec))
    case WriteOk(op) => s.(q := Q.AfterOnWrite(s.q, op, true))
    case WriteErr(op, ec) => s.(q := Q.AfterOnWrite(s.q, op, false), handler := Failing(ec))
    case FailRuns => AfterFail(s.(handler := NoHandler), s.handler.ec, ssl)
    case RunWriting => s.(q := Q.AfterWriting(s.q))
    case RunClosing => s.(closings := s.closings - 1)
    case Free => s.(freed := true)
  }

  function ContainerStep(s: SessionState, a: Action): SessionState
    requires Enabled(s, a) && IsContainers(a)
  {
    match a
    case Copy(request) => s.(site := s.site.(operation := Copied(request, s.member)))
    case Reach =>
      var o := s.site.operation;
      var t := if o.among && Refs(s) > 0 then AfterRequest(s, o.request) else s;
      t.(site := t.site.(operation := if o.request.ClosingListener? then Erasing else NoOperation))
    case Skip => s.(site := s.site.(operation := NoOperation))
    case EraseListener => s.(site := s.site.(registered := false, operation := NoOperation))
  }

  /** `do_accept` as one thread runs it. */
  function Opened(s: SessionState, ssl: bool): SessionState
    requires Enabled(s, Open)
  {
    Step(Step(Step(s, Open, ssl), OpeningStatus, ssl), StartRead, ssl)
  }

  // ---------- The objects ----------

  /** `Shareable`: the listener's set of session pointers. */
  class Share {
    var members: set<Session>

    constructor ()
      ensures members == {}
    {
      members := {};
    }

    method Join(s: Session)
      modifies this
      ensures members == old(members) + {s}
    {
      members := members + {s};
    }

    method Leave(s: Session)
      modifies this
      ensures members == old(members) - {s}
    {
      members := members - {s};
    }
  }

  /** The container, as far as it tells which listeners' sets are registered. */
  class Servers {
    var open: set<Share>

    constructor ()
      ensures open == {}
    {
      open := {};
    }

    /** The sessions that are members of some registered listener. */
    ghost function Listed(): set<Session>
      reads this, open
    {
      set share, s | share in open && s in share.members :: s
    }

    /** `make_status_message`: go through the registered listeners and collect their sessions. */
    method Status() returns (listed: set<Session>)
      ensures listed == Listed()
    {
      listed := {};
      var todo := open;
      while todo != {}
        invariant todo <= open
        invariant listed == set share, s | share in open - todo && s in share.members :: s
        decreases todo
      {
        var share :| share in todo;
        listed := listed + share.members;
        todo := todo - {share};
      }
      assert open - todo == open;
    }

    /** The last step of closing a listener. */
    method Erase(share: Share)
      modifies this
      ensures open == old(open) - {share}
    {
      open := open - {share};
    }
  }

  class Session {
    const ssl: bool
    const servers: Servers
    const share: Share
    const out: Q.Writer<S.Bytes>
    var handshaking: bool
    var reading: bool
    var handler: Handler
    var closings: nat
    ghost var joined: bool
    ghost var closes: nat
    ghost var errors: nat
    ghost var freed: bool
    ghost var operation: Operation
    ghost var reached: seq<Request>
    ghost var told: seq<bool>
    ghost var got: seq<S.Bytes>

    ghost function State(): SessionState
      reads this, servers, share, out
    {
      SessionState(out.State(), handshaking, reading, handler, closings, this in share.members,
                   joined, closes, errors, freed, Site(share in servers.open, operation, reached), told, got)
    }

    /** A session is in no set but its listener's. */
    ghost predicate AtHome()
      reads this, servers, servers.open
    {
      forall other :: other in servers.open && this in other.members ==> other == share
    }

    /** The memberships of all other sessions are as before. */
    twostate predicate OthersKept()
      reads share
    {
      share.members - {this} == old(share.members) - {this}
    }

    constructor (ssl: bool, servers: Servers, share: Share)
      requires share in servers.open
      ensures this.ssl == ssl && this.servers == servers && this.share == share && fresh(out)
      ensures State() == Fresh()
    {
      this.ssl, this.servers, this.share := ssl, servers, share;
      handshaking, reading, handler, closings := true, false, NoHandler, 0;
      joined, closes, errors, freed, operation := false, 0, 0, false, NoOperation;
      reached, told, got := [], [], [];
      var writer := new Q.Writer<S.Bytes>();
      out := writer;
    }

    /** The first half of `on_open`. */
    method JoinShare()
      requires Enabled(State(), Open) && AtHome()
      modifies this, share
      ensures State() == Step(old(State()), Open, ssl) && OthersKept() && AtHome()
    {
      handshaking, handler, joined := false, Joining, true;
      share.Join(this);
    }

    method OnOpen()
      requires Enabled(State(), Open) && AtHome()
      modifies this, share
      ensures State() == Step(Step(old(State()), Open, ssl), OpeningStatus, ssl) && OthersKept()
    {
      JoinShare();
      ghost var s := State();
      hide Refs, AtHome;
      SendStatus();
      handler := Opening;
    }

    method OnClose()
      requires AtHome()
      modifies this, share
      ensures State() == AfterClose(old(State())) && OthersKept() && AtHome()
    {
      closes := closes + 1;
      share.Leave(this);
      SendStatus();
    }

    /** `send_status`: everybody is sent the members of the registered listeners. */
    method SendStatus()
      requires AtHome()
      modifies this`told
      ensures told == old(told) + [Listed(State())]
    {
      var listed := servers.Status();
      told := told + [this in listed];
    }

    /** `read_handler`. */
    method ReadHandler(data: S.Bytes)
      modifies this`got
      ensures got == old(got) + [data]
    {
      got := got + [data];
    }

    method DoRead()
      modifies this
      ensures State() == old(State()).(reading := true)
    {
      reading := true;
    }

    /** `do_accept`. */
    method DoAccept()
      requires Enabled(State(), Open) && AtHome()
      modifies this, share
      ensures State() == Opened(old(State()), ssl) && OthersKept()
    {
      OnOpen();
      DoRead();
      handler := NoHandler;
    }

    method Fail(ec: Code)
      requires AtHome()
      modifies this, share
      ensures State() == AfterFail(old(State()), ec, ssl) && OthersKept()
    {
      if ec == Aborted || ec == Eof {
        OnClose();
        return;
      }
      if ssl && ec == Truncated {
        OnClose();
        return;
      }
      errors := errors + 1;
      OnClose();
      closings := closings + 1;
    }

    method OnHandshake(failed: bool, ec: Code)
      requires Enabled(State(), Open) && AtHome()
      modifies this, share
      ensures OthersKept()
      ensures State() ==
        if failed then Step(Step(old(State()), HandshakeErr(ec), ssl), FailRuns, ssl)
        else Opened(old(State()), ssl)
    {
      hide AfterFail;
      if failed {
        handshaking := false;
        Fail(ec);
      } else {
        DoAccept();
      }
    }

    method OnReadFailed(ec: Code)
      requires Enabled(State(), ReadErr(ec)) && AtHome()
      modifies this, share
      ensures State() == Step(Step(old(State()), ReadErr(ec), ssl), FailRuns, ssl) && OthersKept()
    {
      hide AfterFail;
      reading := false;
      Fail(ec);
    }

    method OnReadData(data: S.Bytes)
      requires Enabled(State(), ReadOk(data))
      modifies this
      ensures State() == Step(Step(old(State()), ReadOk(data), ssl), Rearm, ssl)
    {
      hide Refs;
      reading := false;
      ReadHandler(data);
      DoRead();
    }

    method OnRead(failed: bool, ec: Code, data: S.Bytes)
      requires Enabled(State(), ReadOk(data)) && AtHome()
      modifies this, share
      ensures OthersKept()
      ensures State() ==
        if failed then Step(Step(old(State()), ReadErr(ec), ssl), FailRuns, ssl)
        else Step(Step(old(State()), ReadOk(data), ssl), Rearm, ssl)
    {
      if failed {
        OnReadFailed(ec);
      } else {
        OnReadData(data);
      }
    }

    method OnWrite(op: nat, failed: bool, ec: Code)
      requires Enabled(State(), if failed then WriteErr(op, ec) else WriteOk(op)) && AtHome()
      modifies this, share, out
      ensures OthersKept()
      ensures State() ==
        if failed then Step(Step(old(State()), WriteErr(op, ec), ssl), FailRuns, ssl)
        else Step(old(State()), WriteOk(op), ssl)
    {
      hide AfterFail;
      out.OnWrite(op, !failed);
      if failed {
        Fail(ec);
      }
    }

    /** The container comes to the session with something to write. */
    method Write(data: S.Bytes)
      requires State().site.operation == Copied(Writing(data), true) && Refs(State()) > 0
      modifies this, out
      ensures State() == Step(old(State()), Reach, ssl)
    {
      out.Write(data);
      reached, operation := reached + [Writing(data)], NoOperation;
    }

    /** The container comes to the session and asks it to close, alone or with its listener. */
    method Close(request: Request)
      requires !request.Writing?
      requires State().site.operation == Copied(request, true) && Refs(State()) > 0
      modifies this
      ensures State() == Step(old(State()), Reach, ssl)
    {
      closings := closings + 1;
      reached := reached + [request];
      operation := if request.ClosingListener? then Erasing else NoOperation;
    }
  }

  // ---------- Runs ----------

  predicate CanRun(s: SessionState, acts: seq<Action>, ssl: bool)
    decreases |acts|
  {
    acts == [] || (Enabled(s, acts[0]) && CanRun(Step(s, acts[0], ssl), acts[1..], ssl))
  }

  function Run(s: SessionState, acts: seq<Action>, ssl: bool): SessionState
    requires CanRun(s, acts, ssl)
    decreases |acts|
  {
    if acts == [] then s else Run(Step(s, acts[0], ssl), acts[1..], ssl)
  }

  // ---------- The invariant ----------

  /** The read chain goes on: a read is outstanding or about to be started. */
  predicate ReadChain(s: SessionState) {
    s.reading || s.handler.Joining? || s.handler.Opening? || s.handler.InRead?
  }

  /** Chains that may still call `on_close`: the read chain (or the handshake before it), the write
      chain, and a failure being handled. */
  function Chains(s: SessionState): nat {
    (if s.handshaking || ReadChain(s) then 1 else 0)
    + (if s.q.failures == 0 then 1 else 0)
    + (if s.handler.Failing? then 1 else 0)
  }

  /** How many of its two chains have ended: the read chain, and the write chain by a failed write. */
  function Ended(s: SessionState): nat {
    (if ReadChain(s) then 0 else 1) + s.q.failures
  }

  ghost predicate Inv(s: SessionState) {
    && Q.Inv(s.q)
    && (s.joined ==> s.closes + (if s.handler.Failing? then 1 else 0) == Ended(s))
    && (s.member <==> s.joined && s.closes == 0)
    && (s.member ==> ReadChain(s) || s.handler.Failing?)
    && (s.handshaking ==> !s.joined && !s.reading && s.handler.NoHandler? && s.closes == 0)
    && (!s.joined ==> s.q == Q.Empty())
    && (s.reading ==> !s.handler.Joining? && !s.handler.Opening? && !s.handler.InRead?)
    && (s.handler.Joining? ==> s.member)
    && s.closes + Chains(s) <= 2
    && (s.freed ==> Refs(s) == 0)
    && (s.site.operation.Copied? && s.site.operation.among ==> s.joined)
  }

  lemma QueueStepKeepsInv(s: SessionState, a: Q.Action<S.Bytes>)
    requires Inv(s) && s.joined && !s.freed && Q.Enabled(s.q, a) && (a.Finish? ==> a.ok)
    ensures Inv(s.(q := Q.Step(s.q, a)))
  {
    Q.StepKeepsInv(s.q, a);
  }

  lemma WriteErrKeepsInv(s: SessionState, op: nat, ec: Code, ssl: bool)
    requires Inv(s) && Enabled(s, WriteErr(op, ec))
    ensures Inv(Step(s, WriteErr(op, ec), ssl))
  {
    assert s.joined;
    Q.StepKeepsInv(s.q, Q.Finish(op, false));
  }

  lemma ReachKeepsInv(s: SessionState, ssl: bool)
    requires Inv(s) && Enabled(s, Reach)
    ensures Inv(Step(s, Reach, ssl))
  {
    hide Q.Inv;
    var r := s.site.operation.request;
    if s.site.operation.among && Refs(s) > 0 && r.Writing? {
      QueueStepKeepsInv(s, Q.Submit(r.data));
    }
  }

  lemma FailRunsKeepsInv(s: SessionState, ssl: bool)
    requires Inv(s) && Enabled(s, FailRuns)
    ensures Inv(Step(s, FailRuns, ssl))
  {
    hide Q.Inv;
  }

  lemma StepKeepsInv(s: SessionState, a: Action, ssl: bool)
    requires Inv(s) && Enabled(s, a)
    ensures Inv(Step(s, a, ssl))
  {
    hide Q.Inv;
    match a
    case FailRuns => FailRunsKeepsInv(s, ssl);
    case WriteOk(op) => QueueStepKeepsInv(s, Q.Finish(op, true));
    case WriteErr(op, ec) => WriteErrKeepsInv(s, op, ec, ssl);
    case Reach => ReachKeepsInv(s, ssl);
    case RunWriting => QueueStepKeepsInv(s, Q.Execute);
    case _ =>
  }

  lemma {:induction false} RunKeepsInv(s: SessionState, acts: seq<Action>, ssl: bool)
    requires Inv(s) && CanRun(s, acts, ssl)
    ensures Inv(Run(s, acts, ssl))
    decreases |acts|
  {
    hide Inv, Step, Enabled;
    if acts != [] {
      StepKeepsInv(s, acts[0], ssl);
      RunKeepsInv(Step(s, acts[0], ssl), acts[1..], ssl);
    }
  }

  // ---------- Theorems ----------

  /** The set never holds a dangling pointer: at every instant of every run a member is referenced,
      by its outstanding read whenever no handler is running on it. */
  lemma NoDanglingMember(acts: seq<Action>, ssl: bool)
    requires CanRun(Fresh(), acts, ssl)
    ensures var s := Run(Fresh(), acts, ssl);
      && (s.member ==> !s.freed && Refs(s) > 0)
      && (s.member && s.handler.NoHandler? ==> s.reading)
  {
    RunKeepsInv(Fresh(), acts, ssl);
  }

  /** A session is a member exactly from its opening to the end of its first chain, whichever that is,
      up to the moment when the failure is handled. So between handlers the members are the sessions
      that are reading and whose writes have not failed, and a reading session is out of the set exactly
      when one of its writes has failed. */
  lemma MemberUntilFirstEnd(acts: seq<Action>, ssl: bool)
    requires CanRun(Fresh(), acts, ssl)
    ensures var s := Run(Fresh(), acts, ssl);
      && (s.member <==> s.joined && s.closes == 0)
      && (s.member <==> s.joined && Ended(s) == if s.handler.Failing? then 1 else 0)
      && (s.joined && s.handler.NoHandler? ==> (s.member <==> s.reading && s.q.failures == 0))
      && (s.joined && s.handler.NoHandler? && s.reading ==> (!s.member <==> s.q.failures == 1))
  {
    RunKeepsInv(Fresh(), acts, ssl);
  }

  // ---------- Who changes what ----------

  /** The session's own handlers change nothing of the container's, submit nothing, and send a status
      when it opens and when it closes. */
  lemma SessionFrame(s: SessionState, a: Action, ssl: bool)
    requires Enabled(s, a) && !IsContainers(a)
    ensures var r := SessionStep(s, a, ssl);
      && r.site == s.site && r.q.submitted == s.q.submitted
      && r.told == Telling(s, a)
  {
    hide Refs, AfterFail, Listed, Q.AfterWriting, Q.AfterOnWrite;
    if a.FailRuns? {
      FailFrame(s.(handler := NoHandler), s.handler.ec, ssl);
    } else if a.RunWriting? || a.WriteOk? || a.WriteErr? {
      OutgoingFrame(s, a, ssl);
    }
  }

  lemma OutgoingFrame(s: SessionState, a: Action, ssl: bool)
    requires Enabled(s, a) && (a.RunWriting? || a.WriteOk? || a.WriteErr?)
    ensures var r := SessionStep(s, a, ssl);
      r.site == s.site && r.q.submitted == s.q.submitted && r.told == s.told
  {
    hide Refs;
  }

  /** The statuses that a handler sends: one when the session opens and one when it closes. */
  function Telling(s: SessionState, a: Action): seq<bool> {
    if a.OpeningStatus? then s.told + [Listed(s)] else if a.FailRuns? then s.told + [false] else s.told
  }

  lemma FailFrame(s: SessionState, ec: Code, ssl: bool)
    ensures var r := AfterFail(s, ec, ssl);
      && r.site == s.site && r.q == s.q && r.joined == s.joined && r.handler == s.handler
      && r.told == s.told + [false] && r.closes == s.closes + 1
  {
  }

  /** The container's operations change nothing of the session but what is posted to it. */
  lemma ContainerFrame(s: SessionState, a: Action)
    requires Enabled(s, a) && IsContainers(a)
    ensures var r := ContainerStep(s, a);
      r == s.(site := r.site, closings := r.closings, q := r.q)
  {
    hide Refs, AfterRequest;
    if a.Reach? {
      RequestFrame(s, s.site.operation.request);
    }
  }

  lemma RequestFrame(s: SessionState, request: Request)
    ensures var r := AfterRequest(s, request); r == s.(site := r.site, closings := r.closings, q := r.q)
  {
    hide Q.AfterWrite;
  }

  // ---------- What the status messages say ----------

  /** A session sends one status when it opens and one for each close; only the first can list it. */
  ghost predicate ToldInv(s: SessionState) {
    && |s.told| == (if s.joined && !s.handler.Joining? then 1 else 0) + s.closes
    && (s.handler.Joining? ==> s.closes == 0)
    && forall i :: 0 <= i < |s.told| && s.told[i] ==> i == 0 && s.joined
  }

  lemma StepKeepsTold(s: SessionState, a: Action, ssl: bool)
    requires Inv(s) && Enabled(s, a) && ToldInv(s)
    ensures ToldInv(Step(s, a, ssl)) && s.told <= Step(s, a, ssl).told
  {
    hide Q.Inv, Q.AfterOnWrite, Q.AfterWriting, Q.AfterWrite, AfterFail, ContainerStep;
    if IsContainers(a) {
      ContainerFrame(s, a);
    } else {
      SessionFrame(s, a, ssl);
      if a.FailRuns? {
        FailFrame(s.(handler := NoHandler), s.handler.ec, ssl);
      }
    }
  }

  lemma {:induction false} RunKeepsTold(s: SessionState, acts: seq<Action>, ssl: bool)
    requires Inv(s) && CanRun(s, acts, ssl) && ToldInv(s)
    ensures ToldInv(Run(s, acts, ssl)) && s.told <= Run(s, acts, ssl).told
    decreases |acts|
  {
    hide Inv, Step, Enabled, ToldInv;
    if acts != [] {
      StepKeepsInv(s, acts[0], ssl);
      StepKeepsTold(s, acts[0], ssl);
      RunKeepsTold(Step(s, acts[0], ssl), acts[1..], ssl);
    }
  }

  /** In every run each opening and each close is announced once, and no close by a list with the
      session on it. */
  lemma StatusesSent(acts: seq<Action>, ssl: bool)
    requires CanRun(Fresh(), acts, ssl)
    ensures var s := Run(Fresh(), acts, ssl);
      && |s.told| == (if s.joined && !s.handler.Joining? then 1 else 0) + s.closes
      && forall i :: 0 <= i < |s.told| && s.told[i] ==> i == 0 && s.joined
  {
    RunKeepsTold(Fresh(), acts, ssl);
  }

  /** In every run the status sent when a session opens lists the session if and only if its listener
      had not been erased by then. */
  lemma OpeningStatusListsIff(before: seq<Action>, after: seq<Action>, ssl: bool)
    requires CanRun(Fresh(), before, ssl) && Enabled(Run(Fresh(), before, ssl), OpeningStatus)
    requires CanRun(Step(Run(Fresh(), before, ssl), OpeningStatus, ssl), after, ssl)
    ensures var s := Run(Fresh(), before, ssl); var r := Run(Step(s, OpeningStatus, ssl), after, ssl);
      r.told != [] && (r.told[0] <==> s.site.registered)
  {
    var s := Run(Fresh(), before, ssl);
    RunKeepsInv(Fresh(), before, ssl);
    RunKeepsTold(Fresh(), before, ssl);
    StepKeepsInv(s, OpeningStatus, ssl);
    StepKeepsTold(s, OpeningStatus, ssl);
    hide Run, CanRun, Q.Inv;
    RunKeepsTold(Step(s, OpeningStatus, ssl), after, ssl);
  }

  // ---------- Both chains ----------

  /** `on_close` runs at most twice, once for each chain. */
  lemma ClosesAtMostTwice(acts: seq<Action>, ssl: bool)
    requires CanRun(Fresh(), acts, ssl)
    ensures Run(Fresh(), acts, ssl).closes <= 2
  {
    RunKeepsInv(Fresh(), acts, ssl);
  }

  /** What was written, queued and posted is what was submitted, also across failures and closes. */
  lemma SessionConserves(acts: seq<Action>, ssl: bool)
    requires CanRun(Fresh(), acts, ssl)
    ensures var q := Run(Fresh(), acts, ssl).q;
      && q.wire + q.queue + q.posted == q.submitted
      && (q.inFlight != [] <==> q.queue != [] && q.failures == 0)
      && |q.inFlight| <= 1
  {
    RunKeepsInv(Fresh(), acts, ssl);
  }

  /** A session may outlive its membership: after a failed write it leaves, the close that is posted runs
      without effect on the read, and bytes are read that are nobody's any more. */
  lemma ReadsAfterLeaving() returns (acts: seq<Action>, later: seq<Action>)
    ensures CanRun(Fresh(), acts, false) && CanRun(Run(Fresh(), acts, false), later, false)
    ensures later == [RunClosing, ReadOk([2]), Rearm]
    ensures var s := Run(Fresh(), acts, false);
      s.joined && s.closes == 1 && !s.member && s.got == []
    ensures var s := Run(Run(Fresh(), acts, false), later, false);
      s.reading && s.closings == 0 && !s.member && !s.freed && s.got == [[2]]
  {
    var s := OpensAndReads();
    var s1 := Step(s, Copy(Writing([1])), false);
    var s2 := Step(s1, Reach, false);
    assert s2.q == Q.AfterWrite(s.q, [1]);
    acts, later := WriteFails(Step(s2, RunWriting, false));
    acts := Prepend(s2, RunWriting, acts, false);
    acts := Prepend(s1, Reach, acts, false);
    acts := Prepend(s, Copy(Writing([1])), acts, false);
    hide Step, Enabled, Run, CanRun;
    acts := FromTheStart(s, acts);
  }

  /** A session that has just opened. */
  function OpensAndReads(): SessionState {
    Fresh().(handshaking := false, reading := true, member := true, joined := true, told := [true])
  }

  lemma FromTheStart(s: SessionState, rest: seq<Action>) returns (acts: seq<Action>)
    requires s == OpensAndReads() && CanRun(s, rest, false)
    ensures CanRun(Fresh(), acts, false) && Run(Fresh(), acts, false) == Run(s, rest, false)
  {
    var s1 := Step(Fresh(), Open, false);
    var s2 := Step(s1, OpeningStatus, false);
    assert Step(s2, StartRead, false) == s;
    acts := Prepend(s2, StartRead, rest, false);
    acts := Prepend(s1, OpeningStatus, acts, false);
    acts := Prepend(Fresh(), Open, acts, false);
  }

  /** The second half of that run. */
  lemma WriteFails(s: SessionState) returns (acts: seq<Action>, later: seq<Action>)
    requires s.joined && s.reading && !s.freed && s.handler.NoHandler? && |s.q.inFlight| == 1
    requires s.closings == 0 && s.closes == 0 && s.got == []
    ensures CanRun(s, acts, false) && CanRun(Run(s, acts, false), later, false)
    ensures later == [RunClosing, ReadOk([2]), Rearm]
    ensures var r := Run(s, acts, false); r.joined && r.closes == 1 && !r.member && r.got == []
    ensures var r := Run(Run(s, acts, false), later, false);
      r.reading && r.closings == 0 && !r.member && !r.freed && r.got == [[2]]
  {
    var s1 := Step(s, WriteErr(0, OtherError), false);
    var s2 := Step(s1, FailRuns, false);
    acts := [];
    later := GoesOn(s2);
    acts := Prepend(s1, FailRuns, acts, false);
    acts := Prepend(s, WriteErr(0, OtherError), acts, false);
  }

  lemma GoesOn(s: SessionState) returns (later: seq<Action>)
    requires s.reading && !s.freed && !s.member && s.handler.NoHandler? && s.closings == 1 && s.got == []
    ensures later == [RunClosing, ReadOk([2]), Rearm] && CanRun(s, later, false)
    ensures var r := Run(s, later, false);
      r.reading && r.closings == 0 && !r.member && !r.freed && r.got == [[2]]
  {
    var s1 := Step(s, RunClosing, false);
    var s2 := Step(s1, ReadOk([2]), false);
    later := [];
    later := Prepend(s2, Rearm, later, false);
    later := Prepend(s1, ReadOk([2]), later, false);
    later := Prepend(s, RunClosing, later, false);
  }

  lemma Prepend(s: SessionState, a: Action, rest: seq<Action>, ssl: bool) returns (acts: seq<Action>)
    requires Enabled(s, a) && CanRun(Step(s, a, ssl), rest, ssl)
    ensures acts == [a] + rest && CanRun(s, acts, ssl) && Run(s, acts, ssl) == Run(Step(s, a, ssl), rest, ssl)
  {
    acts := [a] + rest;
    assert acts[1..] == rest;
  }
}
