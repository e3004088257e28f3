/**
 The browser-facing side of the daemon: WebSocket sessions that join a static membership set when
 their handshake succeeds, broadcast to every member, and leave when the last reference to the
 session object disappears.

 A `Hub` value is the state between two handlers of a single-threaded executor. Every handler is
 one `Step`; which operation completes next, and with which error code, is up to the environment.
 Object lifetime is explicit: a session is referenced by its outstanding operations, its posted
 tasks and the handler that is running on it, and may be destroyed once nothing refers to it.
 */
module Broadcast {
  import Q = WriteQueue

  datatype Body =
    | Uid(id: nat)
    | AppList
    | Status(users: nat)
    | Echo(text: string)
    | Failure(reason: string)
    | AppMessage(text: string)

  /** What apps send: the member count, the user id and the app list come from the hub alone. */
  type AppBody = b: Body | b.AppMessage? || b.Failure? witness AppMessage("")

  /** A stamped message: `mid` is the server's message counter at the time it was built. */
  datatype Msg =
    | ToAll(mid: nat, body: Body)
    | ToOne(mid: nat, body: Body)

  datatype Code = Aborted | WsClosed | OtherError

  datatype SessionState = SessionState(
    q: Q.Queue<Msg>,
    accepting: bool,    // the handshake is outstanding
    reading: bool,      // a read is outstanding
    handling: bool,     // a completion handler is running and holds a reference
    joined: bool,       // `on_open` has run
    joinedAt: nat,      // how many broadcasts had been made when it joined
    got: seq<Msg>,      // the broadcasts submitted to this session
    closes: nat,        // how often the close callback has run for this session
    freed: bool)        // the destructor has run

  datatype Hub = Hub(
    sessions: seq<SessionState>,
    share: set<nat>,    // `share_`, holding session numbers for pointers
    log: seq<Msg>,      // every broadcast made, in order
    mid: nat,           // the next value of `get_mid`
    uid: nat)           // the next value of `user_id`

  function Start(): Hub {
    Hub([], {}, [], 0, 1)
  }

  function Fresh(): SessionState {
    SessionState(Q.Empty(), true, false, false, false, 0, [], 0, false)
  }

  /** Reference count of the session object. */
  function Refs(s: SessionState): nat {
    (if s.accepting then 1 else 0) + (if s.reading then 1 else 0) + (if s.handling then 1 else 0)
    + |s.q.posted| + |s.q.inFlight|
  }

  function AsUnsigned(n: int): nat {
    n % 0x1_0000_0000
  }

  // ---------- Sending ----------

  function Deliver(s: SessionState, m: Msg): SessionState {
    s.(q := Q.AfterWrite(s.q, m), got := s.got + [m])
  }

  /** `exec_to_all` with `write_share`: members whose reference count is zero are not promoted. */
  function Promoted(h: Hub, i: nat): bool
    requires i < |h.sessions|
  {
    i in h.share && Refs(h.sessions[i]) > 0
  }

  function WriteAll(h: Hub, body: Body): (r: Hub)
    ensures |r.sessions| == |h.sessions|
  {
    var m := ToAll(h.mid, body);
    h.(sessions := seq(|h.sessions|, i requires 0 <= i < |h.sessions| =>
                     if Promoted(h, i) then Deliver(h.sessions[i], m) else h.sessions[i]),
       log := h.log + [m],
       mid := h.mid + 1)
  }

  /** `write` on one session. */
  function WriteOne(h: Hub, k: nat, body: Body): (r: Hub)
    requires k < |h.sessions|
    ensures |r.sessions| == |h.sessions|
  {
    Put(h, k, h.sessions[k].(q := Q.AfterWrite(h.sessions[k].q, ToOne(h.mid, body)))).(mid := h.mid + 1)
  }

  function Put(h: Hub, k: nat, s: SessionState): (r: Hub)
    requires k < |h.sessions|
    ensures |r.sessions| == |h.sessions|
  {
    h.(sessions := h.sessions[k := s])
  }

  // ---------- Callbacks ----------

  /** `on_open`: join, then the user id, the list of apps and the number of members. */
  function OnOpen(h: Hub, k: nat): (r: Hub)
    requires k < |h.sessions|
    ensures |r.sessions| == |h.sessions|
  {
    var h1 := Put(h, k, h.sessions[k].(joined := true, joinedAt := |h.log|)).(share := h.share + {k});
    var h2 := WriteOne(h1, k, Uid(h1.uid)).(uid := h1.uid + 1);
    var h3 := WriteOne(h2, k, AppList);
    WriteAll(h3, Status(AsUnsigned(|h3.share|)))
  }

  /** The codes that run the close callback. */
  predicate Closes(ec: Code) {
    ec == Aborted || ec == WsClosed
  }

  /** `fail`: only an aborted operation and a closed WebSocket run the close callback. */
  function Fail(h: Hub, k: nat, ec: Code): (r: Hub)
    requires k < |h.sessions|
    ensures |r.sessions| == |h.sessions|
  {
    if Closes(ec) then
      WriteAll(Put(h, k, h.sessions[k].(closes := h.sessions[k].closes + 1)), Status(AsUnsigned(|h.share| - 1)))
    else
      h
  }

  /** What an app does with a message: any number of broadcasts and replies to the sender. */
  datatype Emit = EmitAll(body: AppBody) | EmitSender(body: AppBody)

  function EmitEach(h: Hub, k: nat, emits: seq<Emit>): (r: Hub)
    requires k < |h.sessions|
    ensures |r.sessions| == |h.sessions|
    decreases |emits|
  {
    if emits == [] then h
    else
      var h1 := if emits[0].EmitAll? then WriteAll(h, emits[0].body) else WriteOne(h, k, emits[0].body);
      EmitEach(h1, k, emits[1..])
  }

  /** The four ways `on_message` can go. */
  datatype Inbound =
    | NotAnObject
    | BadHeader(text: string)
    | UnknownApp(text: string)
    | Dispatched(text: string, emits: seq<Emit>)

  function OnMessage(h: Hub, k: nat, m: Inbound): (r: Hub)
    requires k < |h.sessions|
    ensures |r.sessions| == |h.sessions|
  {
    match m
    case NotAnObject => WriteOne(h, k, Failure("ILL_FORMED"))
    case BadHeader(text) => WriteOne(WriteAll(h, Echo(text)), k, Failure("ILL_FORMED"))
    case UnknownApp(text) => WriteOne(WriteAll(h, Echo(text)), k, Failure("APP_NOT_FOUND"))
    case Dispatched(text, emits) => EmitEach(WriteAll(h, Echo(text)), k, emits)
  }

  // ---------- Handlers ----------

  datatype Action =
    | Connect
    | AcceptOk(k: nat)
    | AcceptErr(k: nat, ec: Code)
    | ReadOk(k: nat, m: Inbound)
    | ReadErr(k: nat, ec: Code)
    | RunTask(k: nat)
    | WriteOk(k: nat, op: nat)
    | WriteErr(k: nat, op: nat, ec: Code)
    | Free(k: nat)
    | AppBroadcast(body: AppBody)

  predicate Enabled(h: Hub, a: Action) {
    match a
    case Connect => true
    case AppBroadcast(_) => true
    case AcceptOk(k) => k < |h.sessions| && h.sessions[k].accepting
    case AcceptErr(k, _) => k < |h.sessions| && h.sessions[k].accepting
    case ReadOk(k, _) => k < |h.sessions| && h.sessions[k].reading
    case ReadErr(k, _) => k < |h.sessions| && h.sessions[k].reading
    case RunTask(k) => k < |h.sessions| && h.sessions[k].q.posted != []
    case WriteOk(k, op) =>
      k < |h.sessions| && op < |h.sessions[k].q.inFlight| && h.sessions[k].q.queue != []
    case WriteErr(k, op, _) => k < |h.sessions| && op < |h.sessions[k].q.inFlight|
    case Free(k) => k < |h.sessions| && !h.sessions[k].freed && Refs(h.sessions[k]) == 0
  }

  /** The handler of session `k` has returned and releases its reference. */
  function Return(h: Hub, k: nat): (r: Hub)
    requires k < |h.sessions|
    ensures |r.sessions| == |h.sessions|
  {
    Put(h, k, h.sessions[k].(handling := false))
  }

  function Step(h: Hub, a: Action): (r: Hub)
    requires Enabled(h, a)
    ensures |r.sessions| == |h.sessions| + (if a.Connect? then 1 else 0)
  {
    match a
    case Connect =>
      h.(sessions := h.sessions + [Fresh()])
    case AppBroadcast(body) =>
      WriteAll(h, body)
    case AcceptOk(k) =>  // on_accept: do_read, then on_open
      var h1 := Put(h, k, h.sessions[k].(accepting := false, handling := true, reading := true));
      Return(OnOpen(h1, k), k)
    case AcceptErr(k, ec) =>
      var h1 := Put(h, k, h.sessions[k].(accepting := false, handling := true));
      Return(Fail(h1, k, ec), k)
    case ReadOk(k, m) =>  // on_read: read_handler, then do_read
      var h1 := Put(h, k, h.sessions[k].(reading := false, handling := true));
      var h2 := OnMessage(h1, k, m);
      Return(Put(h2, k, h2.sessions[k].(reading := true)), k)
    case ReadErr(k, ec) =>
      var h1 := Put(h, k, h.sessions[k].(reading := false, handling := true));
      Return(Fail(h1, k, ec), k)
    case RunTask(k) =>
      Put(h, k, h.sessions[k].(q := Q.AfterWriting(h.sessions[k].q)))
    case WriteOk(k, op) =>
      Put(h, k, h.sessions[k].(q := Q.AfterOnWrite(h.sessions[k].q, op, true)))
    case WriteErr(k, op, ec) =>
      var h1 := Put(h, k, h.sessions[k].(q := Q.AfterOnWrite(h.sessions[k].q, op, false), handling := true));
      Return(Fail(h1, k, ec), k)
    case Free(k) =>  // the destructor leaves
      Put(h, k, h.sessions[k].(freed := true)).(share := h.share - {k})
  }

  predicate CanRun(h: Hub, acts: seq<Action>)
    decreases |acts|
  {
    acts == [] || (Enabled(h, acts[0]) && CanRun(Step(h, acts[0]), acts[1..]))
  }

  function Run(h: Hub, acts: seq<Action>): Hub
    requires CanRun(h, acts)
    decreases |acts|
  {
    if acts == [] then h else Run(Step(h, acts[0]), acts[1..])
  }
}
