/**
 A session of the TCP server told by what has happened to it: which of its operations are outstanding,
 what it was given to write and what it has read, and what every request of the container and every
 failure have led to.
 */
module TcpHistory {
  import Q = WriteQueue
  import S = Stream
  import opened TcpServer

  /** How often what has happened, and what the completed reads have brought. */
  datatype Tally = Tally(
    opens: nat,
    handshakeFails: nat,
    readFails: nat,
    writes: nat,
    writeFails: nat,
    fails: nat,            // failures of any of the three
    reports: nat,          // those of them that are errors and no ends of a connection
    shuts: nat,            // runs of `closing`
    frees: nat,
    arrived: seq<S.Bytes>)

  function Zero(): Tally {
    Tally(0, 0, 0, 0, 0, 0, 0, 0, 0, [])
  }

  /** The codes that end a connection without being an error. */
  predicate Silent(ec: Code, ssl: bool) {
    ec == Aborted || ec == Eof || (ssl && ec == Truncated)
  }

  function Failed(t: Tally, ec: Code, ssl: bool): Tally {
    t.(fails := t.fails + 1, reports := t.reports + (if Silent(ec, ssl) then 0 else 1))
  }

  function Counted(t: Tally, a: Action, ssl: bool): Tally {
    match a
    case Open => t.(opens := t.opens + 1)
    case HandshakeErr(ec) => Failed(t, ec, ssl).(handshakeFails := t.handshakeFails + 1)
    case ReadErr(ec) => Failed(t, ec, ssl).(readFails := t.readFails + 1)
    case WriteErr(_, ec) => Failed(t, ec, ssl).(writeFails := t.writeFails + 1)
    case WriteOk(_) => t.(writes := t.writes + 1)
    case ReadOk(data) => t.(arrived := t.arrived + [data])
    case RunClosing => t.(shuts := t.shuts + 1)
    case Free => t.(frees := t.frees + 1)
    case _ => t
  }

  function CountedAll(t: Tally, acts: seq<Action>, ssl: bool): Tally
    decreases |acts|
  {
    if acts == [] then t else CountedAll(Counted(t, acts[0], ssl), acts[1..], ssl)
  }

  /** The data of the write requests that have come to the session. */
  function ToWrite(reached: seq<Request>): seq<S.Bytes> {
    if reached == [] then []
    else
      var r := reached[|reached| - 1];
      ToWrite(reached[..|reached| - 1]) + (if r.Writing? then [r.data] else [])
  }

  /** How many of the requests that have come to the session ask it to close. */
  function ToClose(reached: seq<Request>): nat {
    if reached == [] then 0
    else ToClose(reached[..|reached| - 1]) + (if reached[|reached| - 1].Writing? then 0 else 1)
  }

  lemma ReachedSnoc(reached: seq<Request>, r: Request)
    ensures ToWrite(reached + [r]) == ToWrite(reached) + (if r.Writing? then [r.data] else [])
    ensures ToClose(reached + [r]) == ToClose(reached) + (if r.Writing? then 0 else 1)
  {
    assert (reached + [r])[..|reached|] == reached;
  }

  // ---------- The session is its history ----------

  /** Its chains. A failure has run the close callback when `fail` has handled it. */
  ghost predicate Chain(s: SessionState, t: Tally, ssl: bool) {
    && (s.handshaking <==> t.opens == 0 && t.handshakeFails == 0)
    && (s.joined <==> t.opens > 0)
    && (ReadChain(s) <==> t.opens > 0 && t.readFails == 0)
    && (t.opens == 0 ==> t.readFails == 0)
    && s.closes + (if s.handler.Failing? then 1 else 0) == t.fails
    && s.errors + (if s.handler.Failing? && !Silent(s.handler.ec, ssl) then 1 else 0) == t.reports
    && (s.freed <==> t.frees > 0)
  }

  /** What it was asked for and what it did about it. */
  ghost predicate Account(s: SessionState, t: Tally) {
    && s.closings + t.shuts == ToClose(s.site.reached) + s.errors
    && s.q.submitted == ToWrite(s.site.reached)
    && |s.q.wire| == t.writes && s.q.failures == t.writeFails
    && s.got == t.arrived
  }

  lemma SessionKeepsChain(s: SessionState, t: Tally, a: Action, ssl: bool)
    requires Inv(s) && Enabled(s, a) && !IsContainers(a) && Chain(s, t, ssl)
    ensures Chain(SessionStep(s, a, ssl), Counted(t, a, ssl), ssl)
  {
    hide Refs, Q.Inv, Q.AfterWriting, Q.AfterOnWrite, Listed, AfterFail;
    if a.FailRuns? {
      FailingKeepsChain(s, t, ssl);
    }
  }

  lemma FailingKeepsChain(s: SessionState, t: Tally, ssl: bool)
    requires Enabled(s, FailRuns) && Chain(s, t, ssl)
    ensures Chain(SessionStep(s, FailRuns, ssl), t, ssl)
  {
    hide Refs, Listed;
  }

  lemma ContainerKeepsChain(s: SessionState, t: Tally, a: Action, ssl: bool)
    requires Enabled(s, a) && IsContainers(a) && Chain(s, t, ssl)
    ensures Chain(ContainerStep(s, a), Counted(t, a, ssl), ssl)
  {
    hide ContainerStep, Refs, Silent;
    ContainerFrame(s, a);
  }

  lemma QueueKeepsAccount(s: SessionState, t: Tally, a: Action, ssl: bool)
    requires Enabled(s, a) && (a.RunWriting? || a.WriteOk? || a.WriteErr?) && Account(s, t)
    ensures Account(SessionStep(s, a, ssl), Counted(t, a, ssl))
  {
    hide Refs, ToWrite, ToClose, Silent, Q.AfterWriting, Q.AfterOnWrite;
    QueueMoves(s.q, if a.RunWriting? then Q.Execute else Q.Finish(a.op, a.WriteOk?));
  }

  lemma QueueMoves(q: Q.Queue<S.Bytes>, a: Q.Action<S.Bytes>)
    requires Q.Enabled(q, a) && !a.Submit?
    ensures var r := Q.Step(q, a);
      && r.submitted == q.submitted
      && |r.wire| == |q.wire| + (if a.Finish? && a.ok then 1 else 0)
      && r.failures == q.failures + (if a.Finish? && !a.ok then 1 else 0)
  {
  }

  lemma FailingKeepsAccount(s: SessionState, t: Tally, ssl: bool)
    requires Enabled(s, FailRuns) && Account(s, t)
    ensures Account(SessionStep(s, FailRuns, ssl), t)
  {
    hide Refs, ToWrite, ToClose, AfterFail;
    FailCounts(s.(handler := NoHandler), s.handler.ec, ssl);
  }

  /** Handling a failure posts a `closing` if and only if it reports an error. */
  lemma FailCounts(s: SessionState, ec: Code, ssl: bool)
    ensures var r := AfterFail(s, ec, ssl);
      && r.closings + s.errors == s.closings + r.errors
      && r.site == s.site && r.q == s.q && r.got == s.got
  {
    hide Listed;
  }

  lemma SessionKeepsAccount(s: SessionState, t: Tally, a: Action, ssl: bool)
    requires Enabled(s, a) && !IsContainers(a) && Account(s, t)
    ensures Account(SessionStep(s, a, ssl), Counted(t, a, ssl))
  {
    hide Refs, Listed, ToWrite, ToClose, AfterFail, Silent, Q.AfterWriting, Q.AfterOnWrite;
    if a.FailRuns? {
      FailingKeepsAccount(s, t, ssl);
    } else if a.RunWriting? || a.WriteOk? || a.WriteErr? {
      QueueKeepsAccount(s, t, a, ssl);
    }
  }

  lemma ContainerKeepsAccount(s: SessionState, t: Tally, a: Action, ssl: bool)
    requires Enabled(s, a) && IsContainers(a) && Account(s, t)
    ensures Account(ContainerStep(s, a), Counted(t, a, ssl))
  {
    hide Refs, ToWrite, ToClose, AfterRequest;
    if a.Reach? {
      RequestCounts(s, s.site.operation.request);
    }
  }

  lemma RequestCounts(s: SessionState, r: Request)
    ensures var t := AfterRequest(s, r);
      && t.closings + ToClose(s.site.reached) == s.closings + ToClose(t.site.reached)
      && (s.q.submitted == ToWrite(s.site.reached) ==> t.q.submitted == ToWrite(t.site.reached))
      && t.q.wire == s.q.wire && t.q.failures == s.q.failures && t.got == s.got && t.errors == s.errors
  {
    hide ToWrite, ToClose;
    ReachedSnoc(s.site.reached, r);
  }

  lemma {:induction false} RunIsCounted(s: SessionState, t: Tally, acts: seq<Action>, ssl: bool)
    requires Inv(s) && CanRun(s, acts, ssl) && Chain(s, t, ssl) && Account(s, t)
    ensures var r, u := Run(s, acts, ssl), CountedAll(t, acts, ssl); Chain(r, u, ssl) && Account(r, u)
    decreases |acts|
  {
    hide Inv, Enabled, Chain, Account, SessionStep, ContainerStep, Counted;
    if acts != [] {
      var a := acts[0];
      StepKeepsInv(s, a, ssl);
      if IsContainers(a) {
        ContainerKeepsChain(s, t, a, ssl);
        ContainerKeepsAccount(s, t, a, ssl);
      } else {
        SessionKeepsChain(s, t, a, ssl);
        SessionKeepsAccount(s, t, a, ssl);
      }
      RunIsCounted(Step(s, a, ssl), Counted(t, a, ssl), acts[1..], ssl);
    }
  }

  lemma FreshIsCounted(ssl: bool)
    ensures Inv(Fresh()) && Chain(Fresh(), Zero(), ssl) && Account(Fresh(), Zero())
  {
  }

  /** In every run: the handshake is outstanding until it succeeds or fails; a session that has opened
      reads, or is about to, until a read fails; every failure runs the close callback once, and is
      reported unless it only ends the connection; and there is one destruction. */
  lemma SessionIsItsHistory(acts: seq<Action>, ssl: bool)
    requires CanRun(Fresh(), acts, ssl)
    ensures Chain(Run(Fresh(), acts, ssl), CountedAll(Zero(), acts, ssl), ssl)
  {
    hide Run, CanRun, CountedAll, Inv, Chain, Account;
    FreshIsCounted(ssl);
    RunIsCounted(Fresh(), Zero(), acts, ssl);
  }

  /** In every run: each request to close and each reported failure posts one `closing`, and nothing else
      does; what is submitted is the data of the write requests, in order; a message is on the wire for
      every write that has finished; and the handler is given what the reads brought, in order. */
  lemma RequestsAreServed(acts: seq<Action>, ssl: bool)
    requires CanRun(Fresh(), acts, ssl)
    ensures Account(Run(Fresh(), acts, ssl), CountedAll(Zero(), acts, ssl))
  {
    hide Run, CanRun, CountedAll, Inv, Chain, Account;
    FreshIsCounted(ssl);
    RunIsCounted(Fresh(), Zero(), acts, ssl);
  }
}
