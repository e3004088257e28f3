/**
 What happens to the sessions of the hub told by the handlers that have run: what each handler sends
 to whom, in order; which user id a session is given; and which of its operations are outstanding.
 Nothing here refers to the callbacks of the hub.
 */
module BroadcastHistory {
  import Q = WriteQueue
  import opened Broadcast
  import opened BroadcastFrame
  import opened BroadcastOrder

  // ---------- What is sent ----------

  /** A message without its counter. */
  datatype Sent = All(body: Body) | One(body: Body)

  function SentOf(m: Msg): Sent {
    if m.ToAll? then All(m.body) else One(m.body)
  }

  function Sents(ms: seq<Msg>): seq<Sent> {
    seq(|ms|, i requires 0 <= i < |ms| => SentOf(ms[i]))
  }

  /** What everybody is sent. */
  function Public(ss: seq<Sent>): seq<Sent> {
    if ss == [] then [] else (if ss[0].All? then [ss[0]] else []) + Public(ss[1..])
  }

  function Emitted(emits: seq<Emit>): seq<Sent> {
    seq(|emits|, i requires 0 <= i < |emits| =>
      if emits[i].EmitAll? then All(emits[i].body) else One(emits[i].body))
  }

  /** What a handler sends, in order: to everybody, or to its own client alone. */
  function Sends(h: Hub, a: Action): seq<Sent> {
    match a
    case AppBroadcast(body) => [All(body)]
    case AcceptOk(_) => [One(Uid(h.uid)), One(AppList), All(Status(AsUnsigned(|h.share| + 1)))]
    case ReadOk(_, NotAnObject) => [One(Failure("ILL_FORMED"))]
    case ReadOk(_, BadHeader(text)) => [All(Echo(text)), One(Failure("ILL_FORMED"))]
    case ReadOk(_, UnknownApp(text)) => [All(Echo(text)), One(Failure("APP_NOT_FOUND"))]
    case ReadOk(_, Dispatched(text, emits)) => [All(Echo(text))] + Emitted(emits)
    case AcceptErr(_, ec) => Farewell(h, ec)
    case ReadErr(_, ec) => Farewell(h, ec)
    case WriteErr(_, _, ec) => Farewell(h, ec)
    case _ => []
  }

  /** Of the failures only an aborted operation and a closed WebSocket are told to everybody. */
  function Farewell(h: Hub, ec: Code): seq<Sent> {
    match ec
    case Aborted => [All(Status(AsUnsigned(|h.share| - 1)))]
    case WsClosed => [All(Status(AsUnsigned(|h.share| - 1)))]
    case OtherError => []
  }

  /** What of it session `i` is given: everything if the handler is its own, what is for everybody if it
      is a member that something refers to, and nothing otherwise. */
  function Given(h: Hub, a: Action, i: nat): seq<Sent>
    requires i < |h.sessions|
  {
    if HasSubject(a) && a.k == i && !a.AcceptErr? then Sends(h, a)
    else if i in h.share && Refs(h.sessions[i]) > 0 then Public(Sends(h, a))
    else []
  }

  // ---------- One handler ----------

  /** What session `i` is given of what session `k` sends while its handler is running. */
  function Share(h: Hub, k: nat, ss: seq<Sent>, i: nat): seq<Sent>
    requires i < |h.sessions|
  {
    if i !in h.share || Refs(h.sessions[i]) == 0 then []
    else if i == k then ss
    else Public(ss)
  }

  /** `r` is `h` after session `k` has sent `ss`. */
  ghost predicate HasSent(h: Hub, r: Hub, k: nat, ss: seq<Sent>) {
    && OnlyWrites(h, r)
    && Sents(r.log) == Sents(h.log) + Public(ss)
    && r.mid == h.mid + |ss| && r.uid == h.uid
    && forall i :: 0 <= i < |h.sessions| ==> GivenTo(h.sessions[i], r.sessions[i], Share(h, k, ss, i))
  }

  ghost predicate GivenTo(s: SessionState, t: SessionState, ss: seq<Sent>) {
    && Sents(t.q.submitted) == Sents(s.q.submitted) + ss
    && (Refs(s) == 0 <==> Refs(t) == 0)
  }

  lemma SentsSnoc(ms: seq<Msg>, m: Msg)
    ensures Sents(ms + [m]) == Sents(ms) + [SentOf(m)]
  {
  }

  lemma {:induction false} PublicConcat(a: seq<Sent>, b: seq<Sent>)
    ensures Public(a + b) == Public(a) + Public(b)
  {
    if a == [] {
      assert a + b == b;
    } else {
      assert (a + b)[1..] == a[1..] + b;
      PublicConcat(a[1..], b);
      var first := if a[0].All? then [a[0]] else [];
      assert first + (Public(a[1..]) + Public(b)) == (first + Public(a[1..])) + Public(b);
    }
  }

  lemma WriteAllSends(h: Hub, k: nat, body: Body)
    ensures HasSent(h, WriteAll(h, body), k, [All(body)])
  {
    var r := WriteAll(h, body);
    WriteAllFrame(h, body);
    SentsSnoc(h.log, ToAll(h.mid, body));
    assert Public([All(body)]) == [All(body)];
    forall i | 0 <= i < |h.sessions|
      ensures GivenTo(h.sessions[i], r.sessions[i], Share(h, k, [All(body)], i))
    {
      SentsSnoc(h.sessions[i].q.submitted, ToAll(h.mid, body));
      if !Promoted(h, i) {
        assert r.sessions[i] == h.sessions[i];
      }
    }
  }

  lemma WriteOneSends(h: Hub, k: nat, body: Body)
    requires k < |h.sessions| && k in h.share && Refs(h.sessions[k]) > 0
    ensures HasSent(h, WriteOne(h, k, body), k, [One(body)])
  {
    WriteOneFrame(h, k, body);
    SentsSnoc(h.sessions[k].q.submitted, ToOne(h.mid, body));
  }

  lemma Nothing(h: Hub, k: nat)
    ensures HasSent(h, h, k, [])
  {
  }

  lemma Then(a: Hub, b: Hub, c: Hub, k: nat, s: seq<Sent>, t: seq<Sent>)
    requires HasSent(a, b, k, s) && HasSent(b, c, k, t)
    ensures HasSent(a, c, k, s + t)
  {
    OnlyWritesTransitive(a, b, c);
    PublicConcat(s, t);
    hide OnlyWritten, Public;
    forall i | 0 <= i < |a.sessions|
      ensures GivenTo(a.sessions[i], c.sessions[i], Share(a, k, s + t, i))
    {
      assert GivenTo(a.sessions[i], b.sessions[i], Share(a, k, s, i));
      assert GivenTo(b.sessions[i], c.sessions[i], Share(b, k, t, i));
    }
  }

  lemma {:induction false} EmitEachSends(h: Hub, k: nat, emits: seq<Emit>)
    requires k < |h.sessions| && k in h.share && Refs(h.sessions[k]) > 0
    ensures HasSent(h, EmitEach(h, k, emits), k, Emitted(emits))
    decreases |emits|
  {
    if emits == [] {
      Nothing(h, k);
    } else {
      hide WriteAll, WriteOne, OnlyWritten;
      var h1 := if emits[0].EmitAll? then WriteAll(h, emits[0].body) else WriteOne(h, k, emits[0].body);
      var first := if emits[0].EmitAll? then All(emits[0].body) else One(emits[0].body);
      WriteAllSends(h, k, emits[0].body);
      WriteOneSends(h, k, emits[0].body);
      assert HasSent(h, h1, k, [first]);
      assert GivenTo(h.sessions[k], h1.sessions[k], Share(h, k, [first], k));
      EmitEachSends(h1, k, emits[1..]);
      Then(h, h1, EmitEach(h, k, emits), k, [first], Emitted(emits[1..]));
      assert [first] + Emitted(emits[1..]) == Emitted(emits);
    }
  }

  lemma OnMessageSends(h: Hub, k: nat, m: Inbound)
    requires k < |h.sessions| && k in h.share && Refs(h.sessions[k]) > 0
    ensures HasSent(h, OnMessage(h, k, m), k, Sends(h, ReadOk(k, m)))
  {
    hide WriteAll, WriteOne, OnlyWritten;
    if m.NotAnObject? {
      WriteOneSends(h, k, Failure("ILL_FORMED"));
    } else {
      var echo := All(Echo(m.text));
      var h1 := WriteAll(h, Echo(m.text));
      WriteAllSends(h, k, Echo(m.text));
      assert GivenTo(h.sessions[k], h1.sessions[k], Share(h, k, [echo], k));
      match m {
        case BadHeader(_) =>
          WriteOneSends(h1, k, Failure("ILL_FORMED"));
          Then(h, h1, OnMessage(h, k, m), k, [echo], [One(Failure("ILL_FORMED"))]);
        case UnknownApp(_) =>
          WriteOneSends(h1, k, Failure("APP_NOT_FOUND"));
          Then(h, h1, OnMessage(h, k, m), k, [echo], [One(Failure("APP_NOT_FOUND"))]);
        case Dispatched(_, emits) =>
          EmitEachSends(h1, k, emits);
          Then(h, h1, OnMessage(h, k, m), k, [echo], Emitted(emits));
      }
    }
  }

  lemma OnOpenSends(h: Hub, k: nat)
    requires k < |h.sessions| && k !in h.share && Refs(h.sessions[k]) > 0
    ensures HasSent(Joined(h, k).(uid := h.uid + 1), OnOpen(h, k), k, Sends(h, AcceptOk(k)))
  {
    hide WriteAll, WriteOne, OnlyWritten;
    var h1 := Joined(h, k).(uid := h.uid + 1);
    var h2 := WriteOne(h1, k, Uid(h.uid));
    var h3 := WriteOne(h2, k, AppList);
    var users := AsUnsigned(|h.share| + 1);
    WriteOneSends(h1, k, Uid(h.uid));
    assert GivenTo(h1.sessions[k], h2.sessions[k], Share(h1, k, [One(Uid(h.uid))], k));
    WriteOneSends(h2, k, AppList);
    Then(h1, h2, h3, k, [One(Uid(h.uid))], [One(AppList)]);
    WriteAllSends(h3, k, Status(users));
    Then(h1, h3, WriteAll(h3, Status(users)), k, [One(Uid(h.uid)), One(AppList)], [All(Status(users))]);
    OpensInOrder(h, k);
    assert [One(Uid(h.uid)), One(AppList)] + [All(Status(users))] == Sends(h, AcceptOk(k));
  }

  lemma OpensInOrder(h: Hub, k: nat)
    requires k < |h.sessions| && k !in h.share
    ensures var h3 := WriteOne(WriteOne(Joined(h, k).(uid := h.uid + 1), k, Uid(h.uid)), k, AppList);
      OnOpen(h, k) == WriteAll(h3, Status(AsUnsigned(|h.share| + 1)))
  {
    hide WriteAll;
  }

  lemma FailSends(h: Hub, k: nat, ec: Code)
    requires k < |h.sessions|
    ensures HasSent(Put(h, k, Closed(h.sessions[k], ec)), Fail(h, k, ec), k, Farewell(h, ec))
  {
    hide WriteAll, OnlyWritten;
    var h1 := Put(h, k, Closed(h.sessions[k], ec));
    if Closes(ec) {
      WriteAllSends(h1, k, Status(AsUnsigned(|h.share| - 1)));
    } else {
      assert h1 == h;
      Nothing(h, k);
    }
  }

  /** What a step has sent. */
  ghost predicate StepHasSent(h: Hub, r: Hub, a: Action) {
    && |h.sessions| <= |r.sessions|
    && Sents(r.log) == Sents(h.log) + Public(Sends(h, a))
    && r.mid == h.mid + |Sends(h, a)|
    && r.uid == h.uid + (if a.AcceptOk? then 1 else 0)
    && forall i :: 0 <= i < |h.sessions| ==>
         Sents(r.sessions[i].q.submitted) == Sents(h.sessions[i].q.submitted) + Given(h, a, i)
  }

  /** From the sends of a callback, begun by session `k` in state `b`, to those of the handler. */
  lemma HandlerSends(h: Hub, b: Hub, c: Hub, a: Action)
    requires Enabled(h, a) && HasSubject(a) && |b.sessions| == |h.sessions|
    requires HasSent(b, c, a.k, Sends(h, a))
    requires b.log == h.log && b.mid == h.mid && b.uid == h.uid + (if a.AcceptOk? then 1 else 0)
    requires forall i :: 0 <= i < |h.sessions| && i != a.k ==>
      b.sessions[i] == h.sessions[i] && (i in b.share <==> i in h.share)
    requires b.sessions[a.k].q.submitted == h.sessions[a.k].q.submitted
    requires Refs(b.sessions[a.k]) > 0 && (a.k in b.share <==> !a.AcceptErr?)
    requires a.AcceptErr? ==> a.k !in h.share
    ensures StepHasSent(h, c, a)
  {
    hide Sends, OnlyWritten, Refs, Public;
    assert Refs(b.sessions[a.k]) != 0;
    forall i | 0 <= i < |h.sessions|
      ensures Sents(c.sessions[i].q.submitted) == Sents(h.sessions[i].q.submitted) + Given(h, a, i)
    {
      assert GivenTo(b.sessions[i], c.sessions[i], Share(b, a.k, Sends(h, a), i));
      if i == a.k && a.AcceptErr? {
        assert Given(h, a, i) == [];
      }
    }
  }

  /** Flags of a session are no messages. */
  lemma FlagsSendNothing(h: Hub, c: Hub, a: Action, k: nat, t: SessionState)
    requires StepHasSent(h, c, a) && k < |h.sessions| && t.q == c.sessions[k].q
    ensures StepHasSent(h, Put(c, k, t), a)
  {
    hide Sends, Given, Public;
  }

  /** A session with an outstanding read or write is a member. */
  lemma BusyIsMember(h: Hub, k: nat)
    requires Inv(h) && AtRest(h) && k < |h.sessions|
    ensures h.sessions[k].reading || h.sessions[k].q.inFlight != [] ==> k in h.share
    ensures h.sessions[k].accepting ==> k !in h.share
  {
    assert SessionInv(h.sessions[k], k in h.share, h.log, h.mid) && Rested(h.sessions[k]);
  }

  lemma AnnounceSends(h: Hub, body: AppBody)
    ensures StepHasSent(h, Step(h, AppBroadcast(body)), AppBroadcast(body))
  {
    hide OnlyWritten;
    WriteAllSends(h, |h.sessions|, body);
    var r := WriteAll(h, body);
    hide WriteAll;
    forall i | 0 <= i < |h.sessions|
      ensures Sents(r.sessions[i].q.submitted) == Sents(h.sessions[i].q.submitted) + Given(h, AppBroadcast(body), i)
    {
      assert GivenTo(h.sessions[i], r.sessions[i], Share(h, |h.sessions|, [All(body)], i));
    }
  }

  lemma FailureSends(h: Hub, t: SessionState, a: Action)
    requires Enabled(h, a) && (a.AcceptErr? || a.ReadErr? || a.WriteErr?)
    requires t.handling && t.q.submitted == h.sessions[a.k].q.submitted && (a.k in h.share <==> !a.AcceptErr?)
    ensures StepHasSent(h, Return(Fail(Put(h, a.k, t), a.k, a.ec), a.k), a)
  {
    hide OnlyWritten, Fail;
    var h1 := Put(h, a.k, t);
    FailSends(h1, a.k, a.ec);
    var h2 := Fail(h1, a.k, a.ec);
    HandlerSends(h, Put(h1, a.k, Closed(t, a.ec)), h2, a);
    hide StepHasSent;
    FlagsSendNothing(h, h2, a, a.k, h2.sessions[a.k].(handling := false));
  }

  /** In every reachable state a handler sends exactly `Sends`, and every session is given exactly its
      part of that, in that order. */
  lemma StepSends(h: Hub, a: Action)
    requires Inv(h) && AtRest(h) && Enabled(h, a)
    ensures StepHasSent(h, Step(h, a), a)
  {
    if HasSubject(a) {
      BusyIsMember(h, a.k);
    }
    hide Inv, AtRest, Step, StepHasSent;
    match a
    case Connect => SilentSteps(h, a);
    case AppBroadcast(body) => AnnounceSends(h, body);
    case AcceptOk(k) => AcceptSends(h, k);
    case AcceptErr(_, _) => FailingSends(h, a);
    case ReadOk(k, m) => ReadSends(h, k, m);
    case ReadErr(_, _) => FailingSends(h, a);
    case RunTask(_) => SilentSteps(h, a);
    case WriteOk(_, _) => SilentSteps(h, a);
    case WriteErr(_, _, _) => FailingSends(h, a);
    case Free(_) => SilentSteps(h, a);
  }

  lemma AcceptSends(h: Hub, k: nat)
    requires Enabled(h, AcceptOk(k)) && k !in h.share
    ensures StepHasSent(h, Step(h, AcceptOk(k)), AcceptOk(k))
  {
    hide OnOpen, OnlyWritten;
    var h1 := Put(h, k, h.sessions[k].(accepting := false, handling := true, reading := true));
    OnOpenSends(h1, k);
    var h2 := OnOpen(h1, k);
    HandlerSends(h, Joined(h1, k).(uid := h.uid + 1), h2, AcceptOk(k));
    hide StepHasSent;
    FlagsSendNothing(h, h2, AcceptOk(k), k, h2.sessions[k].(handling := false));
  }

  lemma ReadSends(h: Hub, k: nat, m: Inbound)
    requires Enabled(h, ReadOk(k, m)) && k in h.share
    ensures StepHasSent(h, Step(h, ReadOk(k, m)), ReadOk(k, m))
  {
    hide OnMessage, OnlyWritten;
    var h1 := Put(h, k, h.sessions[k].(reading := false, handling := true));
    OnMessageSends(h1, k, m);
    var h2 := OnMessage(h1, k, m);
    HandlerSends(h, h1, h2, ReadOk(k, m));
    hide StepHasSent;
    var h3 := Put(h2, k, h2.sessions[k].(reading := true));
    FlagsSendNothing(h, h2, ReadOk(k, m), k, h3.sessions[k]);
    FlagsSendNothing(h, h3, ReadOk(k, m), k, h3.sessions[k].(handling := false));
  }

  lemma FailingSends(h: Hub, a: Action)
    requires Enabled(h, a) && (a.AcceptErr? || a.ReadErr? || a.WriteErr?) && (a.k in h.share <==> !a.AcceptErr?)
    ensures StepHasSent(h, Step(h, a), a)
  {
    hide Fail, StepHasSent;
    var s := h.sessions[a.k];
    FailureSends(h, match a
      case AcceptErr(_, _) => s.(accepting := false, handling := true)
      case ReadErr(_, _) => s.(reading := false, handling := true)
      case WriteErr(_, op, _) => s.(q := Q.AfterOnWrite(s.q, op, false), handling := true), a);
  }

  lemma SilentSteps(h: Hub, a: Action)
    requires Enabled(h, a) && (a.Connect? || a.RunTask? || a.WriteOk? || a.Free?)
    ensures StepHasSent(h, Step(h, a), a)
  {
  }

  // ---------- Whole runs ----------

  /** Everything broadcast in a run, in order. */
  function Announced(h: Hub, acts: seq<Action>): seq<Sent>
    requires CanRun(h, acts)
    decreases |acts|
  {
    if acts == [] then [] else Public(Sends(h, acts[0])) + Announced(Step(h, acts[0]), acts[1..])
  }

  /** Everything session `i` is given in a run, in order. */
  function Received(h: Hub, acts: seq<Action>, i: nat): seq<Sent>
    requires CanRun(h, acts)
    decreases |acts|
  {
    if acts == [] then []
    else (if i < |h.sessions| then Given(h, acts[0], i) else []) + Received(Step(h, acts[0]), acts[1..], i)
  }

  function Submitted(h: Hub, i: nat): seq<Sent> {
    if i < |h.sessions| then Sents(h.sessions[i].q.submitted) else []
  }

  lemma Assoc<T>(a: seq<T>, b: seq<T>, c: seq<T>)
    ensures (a + b) + c == a + (b + c)
  {
  }

  lemma {:induction false} RunAnnounces(h: Hub, acts: seq<Action>)
    requires Inv(h) && AtRest(h) && CanRun(h, acts)
    ensures Sents(Run(h, acts).log) == Sents(h.log) + Announced(h, acts)
    decreases |acts|
  {
    hide Inv, AtRest, Step, Enabled, Sends, Sents, Public, Given;
    if acts != [] {
      StepKeepsInv(h, acts[0]);
      StepKeepsRest(h, acts[0]);
      StepSends(h, acts[0]);
      RunAnnounces(Step(h, acts[0]), acts[1..]);
      Assoc(Sents(h.log), Public(Sends(h, acts[0])), Announced(Step(h, acts[0]), acts[1..]));
    }
  }

  lemma {:induction false} RunGives(h: Hub, acts: seq<Action>, i: nat)
    requires Inv(h) && AtRest(h) && CanRun(h, acts)
    ensures Submitted(Run(h, acts), i) == Submitted(h, i) + Received(h, acts, i)
    decreases |acts|
  {
    hide Inv, AtRest, Step, Enabled, Given, Submitted;
    if acts != [] {
      var given := if i < |h.sessions| then Given(h, acts[0], i) else [];
      StepKeepsInv(h, acts[0]);
      StepKeepsRest(h, acts[0]);
      StepGives(h, acts[0], i);
      RunGives(Step(h, acts[0]), acts[1..], i);
      Assoc(Submitted(h, i), given, Received(Step(h, acts[0]), acts[1..], i));
    }
  }

  lemma StepGives(h: Hub, a: Action, i: nat)
    requires Inv(h) && AtRest(h) && Enabled(h, a)
    ensures Submitted(Step(h, a), i) == Submitted(h, i) + (if i < |h.sessions| then Given(h, a, i) else [])
  {
    hide Inv, AtRest, Step, Sends, Given;
    StepSends(h, a);
    if |h.sessions| <= i < |Step(h, a).sessions| {
      NewIsFresh(h, a, i);
    }
  }

  lemma NewIsFresh(h: Hub, a: Action, i: nat)
    requires Enabled(h, a) && |h.sessions| <= i < |Step(h, a).sessions|
    ensures a.Connect? && Step(h, a).sessions[i] == Fresh()
  {
    hide OnOpen, OnMessage, Fail, WriteAll;
  }

  lemma WireIsFront(h: Hub, i: nat)
    requires Inv(h)
    ensures i < |h.sessions| ==> h.sessions[i].q.wire <= h.sessions[i].q.submitted
  {
    if i < |h.sessions| {
      assert SessionInv(h.sessions[i], i in h.share, h.log, h.mid);
    }
  }

  /** In every run the log and what each session is given are exactly what the handlers send, and what a
      session has written is the front of what it was given. */
  lemma EverythingSent(acts: seq<Action>, i: nat)
    requires CanRun(Start(), acts)
    ensures var h := Run(Start(), acts);
      && Sents(h.log) == Announced(Start(), acts)
      && Submitted(h, i) == Received(Start(), acts, i)
      && (i < |h.sessions| ==> h.sessions[i].q.wire <= h.sessions[i].q.submitted)
  {
    Reachable(acts);
    WireIsFront(Run(Start(), acts), i);
    RunAnnounces(Start(), acts);
    RunGives(Start(), acts, i);
  }

  // ---------- User ids ----------

  /** The number of openings up to that of session `i`, counted on from `next`. */
  function UserId(acts: seq<Action>, i: nat, next: nat): nat {
    if acts == [] then next
    else if acts[0] == AcceptOk(i) then next
    else UserId(acts[1..], i, next + (if acts[0].AcceptOk? then 1 else 0))
  }

  ghost predicate NoIds(ss: seq<Sent>) {
    forall n :: 0 <= n < |ss| ==> !ss[n].body.Uid?
  }

  /** The user id `id`, and no other message is one. */
  ghost predicate StartsWithId(ss: seq<Sent>, id: nat) {
    ss != [] && ss[0] == One(Uid(id)) && NoIds(ss[1..])
  }

  lemma IdThen(ss: seq<Sent>, more: seq<Sent>, id: nat)
    requires StartsWithId(ss, id) && NoIds(more)
    ensures StartsWithId(ss + more, id)
  {
    assert (ss + more)[1..] == ss[1..] + more;
  }

  lemma {:induction false} PublicIsPart(ss: seq<Sent>)
    ensures forall x :: x in Public(ss) ==> x in ss && x.All?
  {
    if ss != [] {
      PublicIsPart(ss[1..]);
    }
  }

  /** Only an opening sends a user id, and to its own client. */
  lemma SendsIds(h: Hub, a: Action)
    ensures !a.AcceptOk? ==> NoIds(Sends(h, a))
    ensures NoIds(Public(Sends(h, a)))
    ensures a.AcceptOk? ==> StartsWithId(Sends(h, a), h.uid)
  {
    PublicIsPart(Sends(h, a));
    if a.AcceptOk? {
      assert Sends(h, a)[1..] == [One(AppList), All(Status(AsUnsigned(|h.share| + 1)))];
    } else if a.ReadOk? && a.m.Dispatched? {
      assert NoIds(Emitted(a.m.emits));
    }
    forall n | 0 <= n < |Public(Sends(h, a))| ensures !Public(Sends(h, a))[n].body.Uid? {
      assert Public(Sends(h, a))[n] in Sends(h, a);
    }
  }

  lemma GivenIds(h: Hub, a: Action, i: nat)
    requires i < |h.sessions|
    ensures a != AcceptOk(i) ==> NoIds(Given(h, a, i))
    ensures a == AcceptOk(i) ==> StartsWithId(Given(h, a, i), h.uid)
  {
    hide Sends, StartsWithId;
    SendsIds(h, a);
  }

  predicate HasJoined(h: Hub, i: nat) {
    i < |h.sessions| && h.sessions[i].joined
  }

  /** Opening is for once. */
  lemma StepJoins(h: Hub, a: Action, i: nat)
    requires Inv(h) && AtRest(h) && Enabled(h, a)
    ensures HasJoined(Step(h, a), i) <==> HasJoined(h, i) || a == AcceptOk(i)
    ensures a == AcceptOk(i) ==> i < |h.sessions| && !HasJoined(h, i)
  {
    hide SessionInv, Step, OnOpen, OnMessage, Fail, WriteAll, Q.AfterOnWrite, Q.AfterWriting;
    if a == AcceptOk(i) {
      AcceptingNotJoined(h, i);
    }
    if i < |h.sessions| {
      StepFrame(h, a, i);
    } else if i < |Step(h, a).sessions| {
      NewIsFresh(h, a, i);
    }
  }

  lemma StepCounts(h: Hub, a: Action)
    requires Inv(h) && AtRest(h) && Enabled(h, a)
    ensures Step(h, a).uid == h.uid + (if a.AcceptOk? then 1 else 0)
  {
    hide Inv, AtRest, Step, Sends;
    StepSends(h, a);
  }

  /** Who has not joined is given nothing until it opens. */
  lemma OutsiderIsGivenNothing(h: Hub, a: Action, i: nat)
    requires Inv(h) && AtRest(h) && Enabled(h, a) && i < |h.sessions| && !HasJoined(h, i) && a != AcceptOk(i)
    ensures Given(h, a, i) == []
  {
    assert SessionInv(h.sessions[i], i in h.share, h.log, h.mid) && Rested(h.sessions[i]);
  }

  lemma {:induction false} NoIdsLater(h: Hub, acts: seq<Action>, i: nat)
    requires Inv(h) && AtRest(h) && CanRun(h, acts) && HasJoined(h, i)
    ensures NoIds(Received(h, acts, i)) && AcceptOk(i) !in acts
    decreases |acts|
  {
    hide Inv, AtRest, Step, Enabled, Given;
    if acts != [] {
      StepKeepsInv(h, acts[0]);
      StepKeepsRest(h, acts[0]);
      StepJoins(h, acts[0], i);
      GivenIds(h, acts[0], i);
      NoIdsLater(Step(h, acts[0]), acts[1..], i);
    }
  }

  lemma {:induction false} IdComesFirst(h: Hub, acts: seq<Action>, i: nat)
    requires Inv(h) && AtRest(h) && CanRun(h, acts) && !HasJoined(h, i)
    ensures var ss := Received(h, acts, i);
      if AcceptOk(i) in acts then StartsWithId(ss, UserId(acts, i, h.uid)) else ss == []
    decreases |acts|
  {
    hide Inv, AtRest, Step, Enabled, Given, HasJoined, StartsWithId, NoIds;
    if acts != [] {
      var a, r := acts[0], Step(h, acts[0]);
      StepKeepsInv(h, a);
      StepKeepsRest(h, a);
      StepJoins(h, a, i);
      StepCounts(h, a);
      if a == AcceptOk(i) {
        GivenIds(h, a, i);
        NoIdsLater(r, acts[1..], i);
        IdThen(Given(h, a, i), Received(r, acts[1..], i), h.uid);
      } else {
        if i < |h.sessions| {
          OutsiderIsGivenNothing(h, a, i);
        }
        IdComesFirst(r, acts[1..], i);
        assert Received(h, acts, i) == Received(r, acts[1..], i);
      }
    }
  }

  lemma {:induction false} IdsDiffer(acts: seq<Action>, i: nat, j: nat, next: nat)
    requires AcceptOk(i) in acts && AcceptOk(j) in acts && i != j
    ensures next <= UserId(acts, i, next) && UserId(acts, i, next) != UserId(acts, j, next)
  {
    if acts[0] == AcceptOk(i) {
      IdAtLeast(acts[1..], j, next + 1);
    } else if acts[0] == AcceptOk(j) {
      IdAtLeast(acts[1..], i, next + 1);
    } else {
      IdsDiffer(acts[1..], i, j, next + (if acts[0].AcceptOk? then 1 else 0));
    }
  }

  lemma {:induction false} IdAtLeast(acts: seq<Action>, i: nat, next: nat)
    ensures next <= UserId(acts, i, next)
  {
    if acts != [] {
      IdAtLeast(acts[1..], i, next + (if acts[0].AcceptOk? then 1 else 0));
    }
  }

  /** In every run the first message that a session is given is its user id, the number of its opening,
      and it is given no other; so no two sessions have the same one. */
  lemma UserIdsAreUnique(acts: seq<Action>, i: nat, j: nat)
    requires CanRun(Start(), acts) && AcceptOk(i) in acts && AcceptOk(j) in acts
    ensures StartsWithId(Submitted(Run(Start(), acts), i), UserId(acts, i, 1))
    ensures i != j ==> UserId(acts, i, 1) != UserId(acts, j, 1)
  {
    hide Received, Announced, Run, CanRun, Submitted, StartsWithId, UserId;
    EverythingSent(acts, i);
    IdComesFirst(Start(), acts, i);
    if i != j {
      IdsDiffer(acts, i, j, 1);
    }
  }

  // ---------- The chains of a session ----------

  /** How often what has happened to one session. */
  datatype Tally = Tally(
    opens: nat,
    acceptFails: nat,
    readFails: nat,
    writes: nat,
    writeFails: nat,
    ends: nat,         // failures of any of the three that have to run the close callback
    frees: nat)

  function Zero(): Tally {
    Tally(0, 0, 0, 0, 0, 0, 0)
  }

  function Ended(t: Tally, ec: Code): Tally {
    if ec.OtherError? then t else t.(ends := t.ends + 1)
  }

  function Counted(t: Tally, a: Action, k: nat): Tally {
    if !HasSubject(a) || a.k != k then t
    else
      match a
      case AcceptOk(_) => t.(opens := t.opens + 1)
      case AcceptErr(_, ec) => Ended(t, ec).(acceptFails := t.acceptFails + 1)
      case ReadErr(_, ec) => Ended(t, ec).(readFails := t.readFails + 1)
      case WriteErr(_, _, ec) => Ended(t, ec).(writeFails := t.writeFails + 1)
      case WriteOk(_, _) => t.(writes := t.writes + 1)
      case Free(_) => t.(frees := t.frees + 1)
      case _ => t
  }

  function CountedAll(t: Tally, acts: seq<Action>, k: nat): Tally
    decreases |acts|
  {
    if acts == [] then t else CountedAll(Counted(t, acts[0], k), acts[1..], k)
  }

  /** A session is what has happened to it. */
  ghost predicate Chain(s: SessionState, t: Tally) {
    && (s.accepting <==> t.opens == 0 && t.acceptFails == 0)
    && (s.joined <==> t.opens > 0)
    && (s.reading <==> t.opens > 0 && t.readFails == 0)
    && (t.opens == 0 ==> t.readFails == 0)
    && (s.freed <==> t.frees > 0)
    && s.closes == t.ends
    && s.q.failures == t.writeFails && |s.q.wire| == t.writes
  }

  ghost predicate Remembers(h: Hub, t: Tally, k: nat) {
    if k < |h.sessions| then Chain(h.sessions[k], t) else t == Zero()
  }

  lemma OwnChain(h: Hub, t: Tally, a: Action)
    requires HasSubject(a) && Enabled(h, a) && Chain(h.sessions[a.k], t)
    requires var s := h.sessions[a.k]; s.accepting ==> !s.joined && !s.reading
    ensures Chain(Own(h, a), Counted(t, a, a.k))
  {
    if a.RunTask? || a.WriteOk? || a.WriteErr? {
      QueueChain(h, t, a);
    } else {
      hide Refs, Q.Inv, Q.AfterWriting, Q.AfterOnWrite;
    }
  }

  lemma QueueChain(h: Hub, t: Tally, a: Action)
    requires (a.RunTask? || a.WriteOk? || a.WriteErr?) && Enabled(h, a) && Chain(h.sessions[a.k], t)
    ensures Chain(Own(h, a), Counted(t, a, a.k))
  {
    hide Refs, Q.AfterWriting, Q.AfterOnWrite;
    QueueMoves(h.sessions[a.k].q, match a
      case RunTask(_) => Q.Execute
      case WriteOk(_, op) => Q.Finish(op, true)
      case WriteErr(_, op, _) => Q.Finish(op, false));
  }

  lemma QueueMoves(q: Q.Queue<Msg>, a: Q.Action<Msg>)
    requires Q.Enabled(q, a) && !a.Submit?
    ensures var r := Q.Step(q, a);
      && |r.wire| == |q.wire| + (if a.Finish? && a.ok then 1 else 0)
      && r.failures == q.failures + (if a.Finish? && !a.ok then 1 else 0)
  {
  }

  lemma ChainWritten(s: SessionState, r: SessionState, t: Tally)
    requires Chain(s, t) && OnlyWritten(s, r)
    ensures Chain(r, t)
  {
  }

  lemma StepRemembers(h: Hub, t: Tally, a: Action, k: nat)
    requires Inv(h) && AtRest(h) && Enabled(h, a) && Remembers(h, t, k)
    ensures Remembers(Step(h, a), Counted(t, a, k), k)
  {
    var r := Step(h, a);
    if k < |h.sessions| {
      assert SessionInv(h.sessions[k], k in h.share, h.log, h.mid) && Rested(h.sessions[k]);
      hide Step, Inv, AtRest, Chain, Own, OnlyWritten;
      StepFrame(h, a, k);
      if HasSubject(a) && a.k == k {
        OwnChain(h, t, a);
        ChainWritten(Own(h, a), r.sessions[k], Counted(t, a, k));
      } else {
        ChainWritten(h.sessions[k], r.sessions[k], t);
      }
    } else {
      hide Step, Inv, AtRest;
      if k < |r.sessions| {
        NewIsFresh(h, a, k);
      }
    }
  }

  lemma {:induction false} RunRemembers(h: Hub, t: Tally, acts: seq<Action>, k: nat)
    requires Inv(h) && AtRest(h) && CanRun(h, acts) && Remembers(h, t, k)
    ensures Remembers(Run(h, acts), CountedAll(t, acts, k), k)
    decreases |acts|
  {
    hide Inv, AtRest, Step, Enabled, Remembers, Counted;
    if acts != [] {
      StepKeepsInv(h, acts[0]);
      StepKeepsRest(h, acts[0]);
      StepRemembers(h, t, acts[0], k);
      RunRemembers(Step(h, acts[0]), Counted(t, acts[0], k), acts[1..], k);
    }
  }

  /** In every run: a session has joined if its handshake has succeeded; it reads from then until a read
      fails; it is a member until it is destroyed; it has closed once for each failure that closes, and
      what is on its wire is one message for each write that has finished. */
  lemma SessionIsItsHistory(acts: seq<Action>, k: nat)
    requires CanRun(Start(), acts) && k < |Run(Start(), acts).sessions|
    ensures var h, t := Run(Start(), acts), CountedAll(Zero(), acts, k);
      Chain(h.sessions[k], t) && (k in h.share <==> t.opens > 0 && t.frees == 0)
  {
    Reachable(acts);
    RunRemembers(Start(), Zero(), acts, k);
    var h := Run(Start(), acts);
    hide Run, CanRun;
    assert SessionInv(h.sessions[k], k in h.share, h.log, h.mid);
  }
}
