/**
 The hub as the program has it: session objects updated in place by their handlers, and the static
 members they share. Every handler is proved to take the hub exactly where `Broadcast` says.
 */
module BroadcastObjects {
  import Q = WriteQueue
  import opened Broadcast
  import BroadcastFrame
  import Order = BroadcastOrder
  import Cascade = BroadcastCascade

  class Session {
    var queue: seq<Msg>      // `queue_`
    var accepting: bool
    var reading: bool
    var handling: bool
    var freed: bool
    var posted: seq<Msg>     // tasks bound to this session and not yet run
    var inFlight: seq<Msg>   // writes handed to the transport

    ghost var submitted: seq<Msg>
    ghost var wire: seq<Msg>
    ghost var failures: nat
    ghost var joined: bool
    ghost var joinedAt: nat
    ghost var got: seq<Msg>
    ghost var closes: nat

    constructor ()
      ensures State() == Fresh()
    {
      queue, posted, inFlight := [], [], [];
      accepting, reading, handling, freed := true, false, false, false;
      submitted, wire, failures, joined, joinedAt, got, closes := [], [], 0, false, 0, [], 0;
    }

    ghost function State(): SessionState
      reads this
    {
      SessionState(Q.Queue(submitted, posted, queue, inFlight, wire, failures),
                   accepting, reading, handling, joined, joinedAt, got, closes, freed)
    }

    /** What `weak_ptr::lock` tests. */
    predicate Referenced()
      reads this
      ensures Referenced() <==> Refs(State()) > 0
    {
      accepting || reading || handling || posted != [] || inFlight != []
    }

    method Write(m: Msg)
      modifies this
      ensures State() == old(State()).(q := Q.AfterWrite(old(State().q), m))
    {
      posted := posted + [m];
      submitted := submitted + [m];
    }

    /** `write_share`, the function a broadcast applies to each member. */
    method WriteShare(m: Msg)
      modifies this
      ensures State() == Deliver(old(State()), m)
    {
      Write(m);
      got := got + [m];
    }

    method DoWrite()
      requires queue != []
      modifies this
      ensures State() == old(State()).(q := Q.AfterDoWrite(old(State().q)))
    {
      inFlight := inFlight + [queue[0]];
    }

    method Writing()
      requires posted != []
      modifies this
      ensures State() == old(State()).(q := Q.AfterWriting(old(State().q)))
    {
      queue := queue + [posted[0]];
      posted := posted[1..];
      if |queue| > 1 {
        return;
      }
      DoWrite();
    }

    /** The completion of write `op` without error. */
    method OnWrite(op: nat)
      requires op < |inFlight| && queue != []
      modifies this
      ensures State() == old(State()).(q := Q.AfterOnWrite(old(State().q), op, true))
    {
      wire := wire + [inFlight[op]];
      inFlight := inFlight[..op] + inFlight[op + 1..];
      queue := queue[1..];
      if queue != [] {
        DoWrite();
      }
    }
  }

  /** What a broadcast does to one session. */
  function Offered(s: SessionState, member: bool, m: Msg): SessionState {
    if member && Refs(s) > 0 then Deliver(s, m) else s
  }

  class Propagator {
    var sessions: seq<Session>
    var share: set<nat>      // `share_`
    var mid: nat
    var uid: nat
    ghost var log: seq<Msg>

    constructor ()
      ensures Valid() && Abs() == Start()
    {
      sessions, share, mid, uid, log := [], {}, 0, 1, [];
    }

    ghost predicate Valid()
      reads this
    {
      && (forall i, j :: 0 <= i < j < |sessions| ==> sessions[i] != sessions[j])
      && (forall i :: i in share ==> i < |sessions|)
    }

    ghost function Abs(): Hub
      reads this, sessions
    {
      Hub(seq(|sessions|, i requires 0 <= i < |sessions| reads this, sessions => sessions[i].State()),
          share, log, mid, uid)
    }

    /** `exec_to_all` with `write_share`: copy the membership, then write to every member of the
        copy that is still referenced. */
    method ExecToAll(m: Msg)
      requires Valid()
      modifies sessions
      ensures forall i :: 0 <= i < |sessions| ==>
        sessions[i].State() == Offered(old(sessions[i].State()), i in share, m)
    {
      hide Deliver, Refs;
      var snapshot := share;
      while snapshot != {}
        invariant snapshot <= share
        invariant forall i :: 0 <= i < |sessions| ==>
          sessions[i].State() == Offered(old(sessions[i].State()), i in share && i !in snapshot, m)
        decreases snapshot
      {
        var i :| i in snapshot;
        if sessions[i].Referenced() {
          sessions[i].WriteShare(m);
        }
        snapshot := snapshot - {i};
      }
    }

    method WriteAll(body: Body)
      requires Valid()
      modifies this`mid, this`log, sessions
      ensures Valid() && Abs() == Broadcast.WriteAll(old(Abs()), body)
    {
      var m := ToAll(mid, body);
      mid := mid + 1;
      log := log + [m];
      ExecToAll(m);
      hide Deliver, Refs;
      assert Abs().sessions == Broadcast.WriteAll(old(Abs()), body).sessions;
    }

    method WriteOne(k: nat, body: Body)
      requires Valid() && k < |sessions|
      modifies this`mid, sessions[k]
      ensures Valid() && Abs() == Broadcast.WriteOne(old(Abs()), k, body)
    {
      var m := ToOne(mid, body);
      mid := mid + 1;
      sessions[k].Write(m);
    }

    method Join(k: nat)
      requires Valid() && k < |sessions|
      modifies this`share, sessions[k]
      ensures Valid() && Abs() == BroadcastFrame.Joined(old(Abs()), k)
    {
      share := share + {k};
      sessions[k].joined := true;
      sessions[k].joinedAt := |log|;
      assert Abs().sessions == BroadcastFrame.Joined(old(Abs()), k).sessions;
    }

    method OnOpen(k: nat)
      requires Valid() && k < |sessions|
      modifies this`mid, this`uid, this`log, this`share, sessions
      ensures Valid() && Abs() == Broadcast.OnOpen(old(Abs()), k)
    {
      hide Broadcast.WriteAll, Broadcast.WriteOne;
      Join(k);
      ghost var h1 := Abs();
      WriteOne(k, Uid(uid));
      uid := uid + 1;
      assert Abs() == Broadcast.WriteOne(h1, k, Uid(h1.uid)).(uid := h1.uid + 1);
      WriteOne(k, AppList);
      WriteAll(Status(AsUnsigned(|share|)));
    }

    method Fail(k: nat, ec: Code)
      requires Valid() && k < |sessions|
      modifies this`mid, this`log, sessions
      ensures Valid() && Abs() == Broadcast.Fail(old(Abs()), k, ec)
    {
      hide Broadcast.WriteAll;
      if Closes(ec) {
        ghost var h := Abs();
        sessions[k].closes := sessions[k].closes + 1;
        assert Abs().sessions == Put(h, k, h.sessions[k].(closes := h.sessions[k].closes + 1)).sessions;
        WriteAll(Status(AsUnsigned(|share| - 1)));
      }
    }

    method OnMessage(k: nat, m: Inbound)
      requires Valid() && k < |sessions|
      modifies this`mid, this`log, sessions
      ensures Valid() && Abs() == Broadcast.OnMessage(old(Abs()), k, m)
    {
      if m.NotAnObject? {
        WriteOne(k, Failure("ILL_FORMED"));
        return;
      }
      WriteAll(Echo(m.text));
      match m
      case BadHeader(_) => WriteOne(k, Failure("ILL_FORMED"));
      case UnknownApp(_) => WriteOne(k, Failure("APP_NOT_FOUND"));
      case Dispatched(_, emits) =>
        var i := 0;
        ghost var start := Abs();
        while i < |emits|
          invariant i <= |emits| && Valid() && |sessions| == |start.sessions|
          invariant EmitEach(start, k, emits) == EmitEach(Abs(), k, emits[i..])
        {
          if emits[i].EmitAll? {
            WriteAll(emits[i].body);
          } else {
            WriteOne(k, emits[i].body);
          }
          assert emits[i..][1..] == emits[i + 1..];
          i := i + 1;
        }
    }

    // ---------- The handlers ----------

    method Accept()
      requires Valid()
      modifies this`sessions
      ensures Valid() && Abs() == Step(old(Abs()), Connect)
      ensures forall s :: s in sessions ==> s in old(sessions) || fresh(s)
    {
      var s := new Session();
      sessions := sessions + [s];
    }

    /** A completion handler starts on session `k`: the operation is no longer outstanding, but the
        handler holds a reference. */
    method Begin(k: nat, accepting: bool, reading: bool)
      requires Valid() && k < |sessions|
      modifies sessions[k]
      ensures Valid()
      ensures Abs() == Put(old(Abs()), k,
          old(Abs()).sessions[k].(accepting := accepting, reading := reading, handling := true))
    {
      var s := sessions[k];
      s.accepting, s.reading, s.handling := accepting, reading, true;
      assert Abs().sessions == Put(old(Abs()), k,
          old(Abs()).sessions[k].(accepting := accepting, reading := reading, handling := true)).sessions;
    }

    /** The handler returns and releases its reference. */
    method Return(k: nat)
      requires Valid() && k < |sessions|
      modifies sessions[k]
      ensures Valid() && Abs() == Broadcast.Return(old(Abs()), k)
    {
      sessions[k].handling := false;
      assert Abs().sessions == Broadcast.Return(old(Abs()), k).sessions;
    }

    /** `do_read`. */
    method DoRead(k: nat)
      requires Valid() && k < |sessions|
      modifies sessions[k]
      ensures Valid() && Abs() == Put(old(Abs()), k, old(Abs()).sessions[k].(reading := true))
    {
      sessions[k].reading := true;
      assert Abs().sessions == Put(old(Abs()), k, old(Abs()).sessions[k].(reading := true)).sessions;
    }

    method OnAccept(k: nat, failed: bool, ec: Code)
      requires Valid() && k < |sessions| && sessions[k].accepting
      modifies this`mid, this`uid, this`log, this`share, sessions
      ensures Valid() && Abs() == Step(old(Abs()), if failed then AcceptErr(k, ec) else AcceptOk(k))
    {
      hide Broadcast.Fail, Broadcast.OnOpen, Broadcast.OnMessage, Broadcast.Return, Q.AfterOnWrite, Q.AfterWriting;
      if failed {
        Begin(k, false, sessions[k].reading);
        Fail(k, ec);
      } else {
        Begin(k, false, true);
        OnOpen(k);
      }
      Return(k);
    }

    method OnRead(k: nat, failed: bool, ec: Code, m: Inbound)
      requires Valid() && k < |sessions| && sessions[k].reading
      modifies this`mid, this`log, sessions
      ensures Valid() && Abs() == Step(old(Abs()), if failed then ReadErr(k, ec) else ReadOk(k, m))
    {
      if failed {
        OnReadFailed(k, ec);
      } else {
        OnReadData(k, m);
      }
    }

    method OnReadFailed(k: nat, ec: Code)
      requires Valid() && k < |sessions| && sessions[k].reading
      modifies this`mid, this`log, sessions
      ensures Valid() && Abs() == Step(old(Abs()), ReadErr(k, ec))
    {
      hide Broadcast.Fail, Broadcast.Return, Q.AfterOnWrite, Q.AfterWriting;
      Begin(k, sessions[k].accepting, false);
      Fail(k, ec);
      Return(k);
    }

    method OnReadData(k: nat, m: Inbound)
      requires Valid() && k < |sessions| && sessions[k].reading
      modifies this`mid, this`log, sessions
      ensures Valid() && Abs() == Step(old(Abs()), ReadOk(k, m))
    {
      hide Broadcast.Fail, Broadcast.OnMessage, Broadcast.Return, Q.AfterOnWrite, Q.AfterWriting;
      Begin(k, sessions[k].accepting, false);
      OnMessage(k, m);
      DoRead(k);
      Return(k);
    }

    method RunTask(k: nat)
      requires Valid() && k < |sessions| && sessions[k].posted != []
      modifies sessions[k]
      ensures Valid() && Abs() == Step(old(Abs()), Action.RunTask(k))
    {
      sessions[k].Writing();
      assert Abs().sessions == Step(old(Abs()), Action.RunTask(k)).sessions;
    }

    method OnWrite(k: nat, op: nat, failed: bool, ec: Code)
      requires Valid() && k < |sessions| && op < |sessions[k].inFlight|
      requires !failed ==> sessions[k].queue != []
      modifies this`mid, this`log, sessions
      ensures Valid() && Abs() == Step(old(Abs()), if failed then WriteErr(k, op, ec) else WriteOk(k, op))
    {
      if failed {
        OnWriteFailed(k, op, ec);
      } else {
        sessions[k].OnWrite(op);
        assert Abs().sessions == Step(old(Abs()), WriteOk(k, op)).sessions;
      }
    }

    method OnWriteFailed(k: nat, op: nat, ec: Code)
      requires Valid() && k < |sessions| && op < |sessions[k].inFlight|
      modifies this`mid, this`log, sessions
      ensures Valid() && Abs() == Step(old(Abs()), WriteErr(k, op, ec))
    {
      hide Broadcast.Fail, Broadcast.OnOpen, Broadcast.OnMessage, Broadcast.Return, Refs;
      var s := sessions[k];
      ghost var h1 := Put(Abs(), k, s.State().(q := Q.AfterOnWrite(s.State().q, op, false), handling := true));
      s.inFlight := s.inFlight[..op] + s.inFlight[op + 1..];
      s.failures, s.handling := s.failures + 1, true;
      assert Abs().sessions == h1.sessions;
      Fail(k, ec);
      Return(k);
    }

    /** The destructor. */
    method Free(k: nat)
      requires Valid() && k < |sessions| && !sessions[k].freed && !sessions[k].Referenced()
      modifies this`share, sessions[k]
      ensures Valid() && Abs() == Step(old(Abs()), Action.Free(k))
    {
      share := share - {k};
      sessions[k].freed := true;
      assert Abs().sessions == Step(old(Abs()), Action.Free(k)).sessions;
    }

    /** Any one action, on the objects. */
    method Perform(a: Action)
      requires Valid() && Enabled(Abs(), a)
      modifies this, sessions
      ensures Valid() && Enabled(old(Abs()), a) && Abs() == Step(old(Abs()), a)
      ensures forall s :: s in sessions ==> s in old(sessions) || fresh(s)
    {
      hide Broadcast.Step, Q.AfterOnWrite, Q.AfterWriting;
      SubjectExists(a);
      match a
      case Connect => Accept();
      case AppBroadcast(body) => Announce(body);
      case AcceptOk(k) => OnAccept(k, false, OtherError);
      case AcceptErr(k, ec) => OnAccept(k, true, ec);
      case ReadOk(k, m) => OnReadData(k, m);
      case ReadErr(k, ec) => OnReadFailed(k, ec);
      case RunTask(k) => RunTask(k);
      case WriteOk(k, op) => OnWrite(k, op, false, OtherError);
      case WriteErr(k, op, ec) => OnWriteFailed(k, op, ec);
      case Free(k) => Free(k);
    }

    /** An app broadcasts. */
    method Announce(body: AppBody)
      requires Valid()
      modifies this`mid, this`log, sessions
      ensures Valid() && Abs() == Step(old(Abs()), AppBroadcast(body))
    {
      WriteAll(body);
    }

    /** What an enabled action means for the object it is about. */
    lemma SubjectExists(a: Action)
      requires Valid() && Enabled(Abs(), a)
      ensures match a
        case Connect => true
        case AppBroadcast(_) => true
        case AcceptOk(k) => k < |sessions| && sessions[k].accepting
        case AcceptErr(k, _) => k < |sessions| && sessions[k].accepting
        case ReadOk(k, _) => k < |sessions| && sessions[k].reading
        case ReadErr(k, _) => k < |sessions| && sessions[k].reading
        case RunTask(k) => k < |sessions| && sessions[k].posted != []
        case WriteOk(k, op) => k < |sessions| && op < |sessions[k].inFlight| && sessions[k].queue != []
        case WriteErr(k, op, _) => k < |sessions| && op < |sessions[k].inFlight|
        case Free(k) => k < |sessions| && !sessions[k].freed && !sessions[k].Referenced()
    {
    }
  }

  /** What every run leaves true of the session objects: each has been given one stretch of the log,
      what it has written of it is the front of it, its counters increase, and it has closed at most
      twice. */
  ghost predicate InOrder(p: Propagator)
    reads p, p.sessions
  {
    forall k :: 0 <= k < |p.sessions| ==> var s := p.sessions[k];
      && Order.Segment(Order.Broadcasts(s.submitted), p.log, s.joinedAt)
      && Order.Broadcasts(s.wire) <= Order.Broadcasts(s.submitted)
      && Order.Increasing(s.wire, p.mid)
      && s.closes <= 2
  }

  lemma RunIsInOrder(p: Propagator, acts: seq<Action>)
    requires CanRun(Start(), acts) && p.Valid() && p.Abs() == Run(Start(), acts)
    ensures InOrder(p)
  {
    hide CanRun, Run, Order.Segment, Order.Broadcasts, Order.Increasing;
    forall k | 0 <= k < |p.sessions|
      ensures var s := p.sessions[k];
        && Order.Segment(Order.Broadcasts(s.submitted), p.log, s.joinedAt)
        && Order.Broadcasts(s.wire) <= Order.Broadcasts(s.submitted)
        && Order.Increasing(s.wire, p.mid)
        && s.closes <= 2
    {
      assert p.Abs().sessions[k] == p.sessions[k].State();
      Order.SessionGetsSegment(acts, k);
      Order.WireCountersIncrease(acts, k);
      Cascade.ClosesAtMostTwice(acts, k);
    }
  }

  /** Any run, on the objects: their state at the end is that of the run, with what follows from it. */
  method Serve(acts: seq<Action>) returns (p: Propagator)
    requires CanRun(Start(), acts)
    ensures p.Valid() && p.Abs() == Run(Start(), acts) && InOrder(p)
  {
    hide Broadcast.Step, Enabled, InOrder;
    p := new Propagator();
    var i := 0;
    while i < |acts|
      invariant i <= |acts| && fresh(p) && p.Valid()
      invariant forall s :: s in p.sessions ==> fresh(s)
      invariant CanRun(p.Abs(), acts[i..]) && Run(p.Abs(), acts[i..]) == Run(Start(), acts)
    {
      assert acts[i..][1..] == acts[i + 1..];
      assert forall j :: 0 <= j < |p.sessions| ==> p.sessions[j] in p.sessions;
      p.Perform(acts[i]);
      i := i + 1;
    }
    RunIsInOrder(p, acts);
  }
}
