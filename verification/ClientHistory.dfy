/**
 The TCP clients told by what has happened to them: what each was given to write while it was the one
 registered under the endpoint asked for, what it has read, how its chains ended, and how often it was
 asked to close.
 */
module ClientHistory {
  import Q = WriteQueue
  import S = Stream
  import opened ClientRegistry

  /** What has happened to one client. */
  datatype Tally = Tally(
    asked: seq<S.Bytes>,     // the data of the writes requested of its endpoint while it was registered there
    arrived: seq<S.Bytes>,   // what its completed reads have brought
    ends: seq<Code>,         // the codes of its failed operations
    readFails: nat,
    writes: nat,
    writeFails: nat,
    closeRequests: nat,      // requests to close its endpoint while it was registered there
    shuts: nat)              // runs of `closing`

  function Zero(): Tally {
    Tally([], [], [], 0, 0, 0, 0, 0)
  }

  /** Client `k` is the one registered under `ep`. */
  predicate Holds(r: Registry, ep: Endpoint, k: nat) {
    ep in r.entries && r.entries[ep] == k
  }

  function Counted(t: Tally, r: Registry, a: Action, k: nat): Tally {
    match a
    case Opened(_, _) => t
    case ReadOk(i, data) => if i == k then t.(arrived := t.arrived + [data]) else t
    case ReadErr(i, ec) => if i == k then t.(ends := t.ends + [ec], readFails := t.readFails + 1) else t
    case RunWriting(_) => t
    case WriteOk(i, _) => if i == k then t.(writes := t.writes + 1) else t
    case WriteErr(i, _, ec) => if i == k then t.(ends := t.ends + [ec], writeFails := t.writeFails + 1) else t
    case RunClosing(i) => if i == k then t.(shuts := t.shuts + 1) else t
    case RequestClose(ep) => if Holds(r, ep, k) then t.(closeRequests := t.closeRequests + 1) else t
    case RequestWrite(ep, data) => if Holds(r, ep, k) then t.(asked := t.asked + [data]) else t
  }

  function CountedAll(t: Tally, r: Registry, acts: seq<Action>, k: nat): Tally
    requires CanRun(r, acts)
    decreases |acts|
  {
    if acts == [] then t
    else CountedAll(Counted(t, r, acts[0], k), Step(r, acts[0]), acts[1..], k)
  }

  /** How many of the codes run the close callback. */
  function Closing(ends: seq<Code>): nat {
    if ends == [] then 0
    else Closing(ends[..|ends| - 1]) + (if ends[|ends| - 1] == Refused then 0 else 1)
  }

  /** The codes that are reported as errors. */
  predicate IsError(ec: Code, ssl: bool) {
    ec == OtherError || (ec == Truncated && !ssl)
  }

  /** How many of them are reported and answered by a `closing` of the client's own. */
  function Errors(ends: seq<Code>, ssl: bool): nat {
    if ends == [] then 0
    else
      var ec := ends[|ends| - 1];
      Errors(ends[..|ends| - 1], ssl)
        + (if IsError(ec, ssl) then 1 else 0)
  }

  lemma EndsSnoc(ends: seq<Code>, ec: Code, ssl: bool)
    ensures Closing(ends + [ec]) == Closing(ends) + (if ec == Refused then 0 else 1)
    ensures Errors(ends + [ec], ssl) == Errors(ends, ssl) + (if IsError(ec, ssl) then 1 else 0)
  {
    assert (ends + [ec])[..|ends|] == ends;
  }

  /** The client is what has happened to it. */
  ghost predicate Account(c: Client, t: Tally) {
    && c.q.submitted == t.asked
    && c.got == t.arrived
    && c.ends == t.ends
    && (c.reading <==> t.readFails == 0)
    && |c.q.wire| == t.writes && c.q.failures == t.writeFails
    && (c.closed <==> t.closeRequests > 0)
    && c.closes == Closing(t.ends)
  }

  ghost predicate Remembers(r: Registry, t: Tally, k: nat) {
    EntriesInRange(r) && if k < |r.clients| then Account(r.clients[k], t) else t == Zero()
  }

  /** What a failure changes: its own client, and of others only how often they are asked to close. */
  lemma FailChanges(r: Registry, k: nat, c: Client, ec: Code)
    requires k < |r.clients| && EntriesInRange(r)
    ensures EntriesInRange(Put(r, k, c))
    ensures var s := Fail(Put(r, k, c), k, ec);
      && EntriesInRange(s) && |s.clients| == |r.clients|
      && (forall i :: 0 <= i < |r.clients| && i != k ==>
            s.clients[i] == r.clients[i].(closings := s.clients[i].closings))
      && s.clients[k] == c.(ends := c.ends + [ec], closings := s.clients[k].closings,
                            closes := c.closes + (if ec == Refused then 0 else 1))
  {
    FailShape(r, k, c, ec);
    OnCloseShape(Put(r, k, c.(ends := c.ends + [ec])), k);
    hide Fail, OnClose;
  }

  lemma FailureRemembers(r: Registry, t: Tally, a: Action, k: nat)
    requires Enabled(r, a) && (a.ReadErr? || a.WriteErr?) && Remembers(r, t, k)
    ensures Remembers(Step(r, a), Counted(t, r, a, k), k)
  {
    hide Fail, Closing;
    var c := r.clients[a.k];
    FailChanges(r, a.k, if a.ReadErr? then c.(reading := false) else c.(q := Q.AfterOnWrite(c.q, a.op, false)), a.ec);
    EndsSnoc(t.ends, a.ec, c.ssl);
  }

  lemma StepRemembers(r: Registry, t: Tally, a: Action, k: nat)
    requires Enabled(r, a) && Remembers(r, t, k)
    ensures Remembers(Step(r, a), Counted(t, r, a, k), k)
  {
    if a.ReadErr? || a.WriteErr? {
      FailureRemembers(r, t, a, k);
    }
    hide Fail;
  }

  lemma {:induction false} RunRemembers(r: Registry, t: Tally, acts: seq<Action>, k: nat)
    requires CanRun(r, acts) && Remembers(r, t, k)
    ensures Remembers(Run(r, acts), CountedAll(t, r, acts, k), k)
    decreases |acts|
  {
    hide Step, Enabled, Remembers, Counted;
    if acts != [] {
      StepRemembers(r, t, acts[0], k);
      RunRemembers(Step(r, acts[0]), Counted(t, r, acts[0], k), acts[1..], k);
    }
  }

  /** In every run, also when endpoints are reused early: a client is given to write exactly the data of
      the requests that named its endpoint while it was registered there, in order; its handler is given
      what its reads brought, in order; it reads until a read fails; its writes finish one message each;
      and its close callback runs once for every failure that was not a refused connection. */
  lemma ClientIsItsHistory(acts: seq<Action>, k: nat)
    requires CanRun(Start(), acts) && k < |Run(Start(), acts).clients|
    ensures Account(Run(Start(), acts).clients[k], CountedAll(Zero(), Start(), acts, k))
  {
    RunRemembers(Start(), Zero(), acts, k);
  }

  // ---------- Who was opened, and where ----------

  function Openings(acts: seq<Action>): seq<(Endpoint, bool)> {
    if acts == [] then []
    else (if acts[0].Opened? then [(acts[0].ep, acts[0].ssl)] else []) + Openings(acts[1..])
  }

  function Owners(r: Registry): seq<(Endpoint, bool)> {
    seq(|r.clients|, i requires 0 <= i < |r.clients| => (r.clients[i].local, r.clients[i].ssl))
  }

  lemma StepOwners(r: Registry, a: Action)
    requires Enabled(r, a)
    ensures Owners(Step(r, a)) == Owners(r) + (if a.Opened? then [(a.ep, a.ssl)] else [])
  {
    if a.ReadErr? || a.WriteErr? {
      var c := r.clients[a.k];
      FailChanges(r, a.k, if a.ReadErr? then c.(reading := false) else c.(q := Q.AfterOnWrite(c.q, a.op, false)), a.ec);
    }
    hide Fail;
  }

  lemma {:induction false} RunOwners(r: Registry, acts: seq<Action>)
    requires CanRun(r, acts)
    ensures Owners(Run(r, acts)) == Owners(r) + Openings(acts)
    decreases |acts|
  {
    hide Step, Enabled, Owners;
    if acts != [] {
      var first := if acts[0].Opened? then [(acts[0].ep, acts[0].ssl)] else [];
      StepOwners(r, acts[0]);
      RunOwners(Step(r, acts[0]), acts[1..]);
      assert (Owners(r) + first) + Openings(acts[1..]) == Owners(r) + (first + Openings(acts[1..]));
    }
  }

  /** In every run the clients are those that opened, in order, each with the endpoint it opened on. */
  lemma ClientsAreTheOpenings(acts: seq<Action>)
    requires CanRun(Start(), acts)
    ensures Owners(Run(Start(), acts)) == Openings(acts)
  {
    RunOwners(Start(), acts);
  }

  // ---------- How often everybody is told ----------

  /** One status for each opening and for each failure that closes. */
  function Announcements(acts: seq<Action>): nat {
    if acts == [] then 0
    else
      var a := acts[0];
      (if a.Opened? || ((a.ReadErr? || a.WriteErr?) && a.ec != Refused) then 1 else 0) + Announcements(acts[1..])
  }

  lemma StepAnnounces(r: Registry, a: Action)
    requires Enabled(r, a)
    ensures |Step(r, a).statuses| == |r.statuses| + Announcements([a])
  {
    assert Announcements([a][1..]) == 0;
    if a.ReadErr? || a.WriteErr? {
      var c := r.clients[a.k];
      FailShape(r, a.k, if a.ReadErr? then c.(reading := false) else c.(q := Q.AfterOnWrite(c.q, a.op, false)), a.ec);
    }
    hide Fail;
  }

  lemma {:induction false} RunAnnounces(r: Registry, acts: seq<Action>)
    requires CanRun(r, acts)
    ensures |Run(r, acts).statuses| == |r.statuses| + Announcements(acts)
    decreases |acts|
  {
    hide Step, Enabled;
    if acts != [] {
      StepAnnounces(r, acts[0]);
      assert Announcements([acts[0]][1..]) == 0;
      RunAnnounces(Step(r, acts[0]), acts[1..]);
    }
  }

  /** In every run one status is sent for each opening and each failure that is no refused connection, and
      none else: not for a close on request. */
  lemma StatusForEachChange(acts: seq<Action>)
    requires CanRun(Start(), acts)
    ensures |Run(Start(), acts).statuses| == Announcements(acts)
  {
    RunAnnounces(Start(), acts);
  }

  // ---------- How often a client is closed ----------

  /** Once when it goes, and once for each of its errors. */
  ghost predicate ClosedOnce(r: Registry, t: Tally, k: nat) {
    k < |r.clients| ==> ClosedFor(r.clients[k], t.shuts)
  }

  predicate ClosedFor(c: Client, shuts: nat) {
    c.closings + shuts == (if Gone(c) then 1 else 0) + Errors(c.ends, c.ssl)
  }

  /** A client that has just failed, as it becomes. */
  function Failed(c: Client, ec: Code): Client {
    c.(ends := c.ends + [ec],
       closes := c.closes + (if ec == Refused then 0 else 1),
       closings := c.closings + (if ec == Refused || Gone(c) then 0 else 1) + (if IsError(ec, c.ssl) then 1 else 0))
  }

  lemma FailedIsClosed(c: Client, ec: Code, shuts: nat)
    requires ClosedFor(c, shuts)
    ensures ClosedFor(Failed(c, ec), shuts)
  {
    hide Errors;
    EndsSnoc(c.ends, ec, c.ssl);
  }

  /** The failing client as it becomes, and the others as they were. */
  lemma FailedClient(r: Registry, k: nat, d: Client, ec: Code)
    requires Inv(r) && k < |r.clients| && !Drained(r.clients[k])
    requires d.local == r.clients[k].local && Gone(d) == Gone(r.clients[k])
    ensures EntriesInRange(Put(r, k, d))
    ensures var s := Fail(Put(r, k, d), k, ec);
      && OthersKept(r, s, k)
      && s.clients[k] == Failed(d, ec)
  {
    hide Inv, Fail, OnClose, Drained;
    var e := d.(ends := d.ends + [ec]);
    StaysInRange(r, k, d);
    FailShape(r, k, d, ec);
    OnCloseEffect(r, k, e);
  }

  lemma FailedIsClosedOnce(r: Registry, t: Tally, i: nat, d: Client, ec: Code, k: nat)
    requires Inv(r) && i < |r.clients| && !Drained(r.clients[i]) && ClosedOnce(r, t, k)
    requires d == r.clients[i].(q := d.q, reading := d.reading) && EntriesInRange(Put(r, i, d))
    ensures ClosedOnce(Fail(Put(r, i, d), i, ec), t, k)
  {
    assert Gone(d) == Gone(r.clients[i]);
    assert i == k ==> ClosedFor(d, t.shuts);
    hide Inv, Fail, Drained, EntriesInRange, ClosedFor, Failed, Gone;
    FailedClient(r, i, d, ec);
    if i == k {
      FailedIsClosed(d, ec, t.shuts);
    }
  }

  lemma FailureCloses(r: Registry, t: Tally, a: Action, k: nat)
    requires Inv(r) && Enabled(r, a) && (a.ReadErr? || a.WriteErr?) && ClosedOnce(r, t, k)
    ensures ClosedOnce(Step(r, a), t, k)
  {
    hide Inv, Fail, ClosedOnce, Drained, Q.AfterOnWrite;
    BusyIsNotDrained(r, a);
    var c := r.clients[a.k];
    FailedIsClosedOnce(r, t, a.k,
      if a.ReadErr? then c.(reading := false) else c.(q := Q.AfterOnWrite(c.q, a.op, false)), a.ec, k);
  }

  lemma BusyIsNotDrained(r: Registry, a: Action)
    requires Enabled(r, a) && (a.ReadErr? || a.WriteErr?)
    ensures !Drained(r.clients[a.k])
  {
  }

  lemma StepCloses(r: Registry, t: Tally, a: Action, k: nat)
    requires Inv(r) && Enabled(r, a) && ClosedOnce(r, t, k) && (k >= |r.clients| ==> t == Zero())
    ensures ClosedOnce(Step(r, a), Counted(t, r, a, k), k)
  {
    if a.ReadErr? || a.WriteErr? {
      FailureCloses(r, t, a, k);
    } else if a.RequestClose? && a.ep in r.entries {
      assert EntryInv(r, a.ep);
    }
    hide Fail, Errors, Inv;
  }

  lemma {:induction false} RunCloses(r: Registry, t: Tally, acts: seq<Action>, k: nat)
    requires Inv(r) && CanRun(r, acts) && NoEarlyReuse(r, acts)
    requires ClosedOnce(r, t, k) && Remembers(r, t, k)
    ensures ClosedOnce(Run(r, acts), CountedAll(t, r, acts, k), k)
    decreases |acts|
  {
    if acts != [] {
      StepCloses(r, t, acts[0], k);
      StepRemembers(r, t, acts[0], k);
      StepKeepsInv(r, acts[0]);
      hide Inv, Step, Enabled, Available, Remembers, ClosedOnce, Counted;
      RunCloses(Step(r, acts[0]), Counted(t, r, acts[0], k), acts[1..], k);
    }
  }

  /** As long as endpoints are not handed out early, a client is closed once when it goes, whether on
      request or because a chain has ended, once more for each error of its own, and by nobody else. */
  lemma ClosedWhenGone(acts: seq<Action>, k: nat)
    requires CanRun(Start(), acts) && NoEarlyReuse(Start(), acts) && k < |Run(Start(), acts).clients|
    ensures var c, t := Run(Start(), acts).clients[k], CountedAll(Zero(), Start(), acts, k);
      c.closings + t.shuts == (if Gone(c) then 1 else 0) + Errors(t.ends, c.ssl)
  {
    ClientIsItsHistory(acts, k);
    RunCloses(Start(), Zero(), acts, k);
  }
}
