/**
 The registry of TCP clients, keyed by local endpoint, against the lifecycles of the clients: a
 client is entered when its connection opens and removed by its own `on_close`, found again through
 the endpoint it saved, or by a request to close it. Both of its chains may fail, so `on_close` may
 run again long after the client is gone.
 */
module ClientRegistry {
  import Q = WriteQueue
  import S = Stream

  type Endpoint = string

  datatype Code = Aborted | Eof | Truncated | Refused | OtherError

  datatype Error = NoError | NotConnected

  datatype Client = Client(
    ssl: bool,
    local: Endpoint,     // saved by `on_open`
    q: Q.Queue<S.Bytes>,
    reading: bool,
    closings: nat,       // posted `closing` tasks
    closes: nat,         // calls of `on_close`
    closed: bool,        // closed on request while registered
    ends: seq<Code>,     // the codes its chains ended with: one read chain and at most one failed write
    got: seq<S.Bytes>)   // what `read_handler` was called with

  /** `clients_` maps endpoints to clients; clients are numbered in the order they opened. */
  datatype Registry = Registry(
    clients: seq<Client>,
    entries: map<Endpoint, nat>,
    statuses: seq<set<Endpoint>>,  // the endpoints named by each status message that was broadcast
    untold: set<Endpoint>)         // closed on request since the last status message

  function Start(): Registry {
    Registry([], map[], [], {})
  }

  /** A connection that has just opened. */
  function Fresh(ep: Endpoint, ssl: bool): Client {
    Client(ssl, ep, Q.Empty(), true, 0, 0, false, [], [])
  }

  function Put(r: Registry, k: nat, c: Client): Registry
    requires k < |r.clients|
  {
    r.(clients := r.clients[k := c])
  }

  /** `Container::close`: post `closing` on the client found and erase the entry. */
  function Close(r: Registry, ep: Endpoint): Registry
    requires ep in r.entries ==> r.entries[ep] < |r.clients|
  {
    if ep !in r.entries then r
    else
      var k := r.entries[ep];
      var c := r.clients[k];
      Put(r, k, c.(closings := c.closings + 1)).(entries := r.entries - {ep})
  }

  /** `message_status`: everybody is told the endpoints registered now. */
  function SendStatus(r: Registry): Registry {
    r.(statuses := r.statuses + [r.entries.Keys], untold := {})
  }

  /** `on_close`: the close callback closes whatever is registered under the saved endpoint, and then
      the status is sent. */
  function OnClose(r: Registry, k: nat): Registry
    requires k < |r.clients| && EntriesInRange(r)
  {
    var c := r.clients[k];
    SendStatus(Close(Put(r, k, c.(closes := c.closes + 1)), c.local))
  }

  predicate EntriesInRange(r: Registry) {
    forall ep :: ep in r.entries ==> r.entries[ep] < |r.clients|
  }

  /** `fail`: a refused connection is reported and nothing else happens. */
  function Fail(r: Registry, k: nat, ec: Code): Registry
    requires k < |r.clients| && EntriesInRange(r)
  {
    var c := r.clients[k];
    var t := Put(r, k, c.(ends := c.ends + [ec]));
    if ec == Aborted || ec == Eof then OnClose(t, k)
    else if c.ssl && ec == Truncated then OnClose(t, k)
    else if ec == Refused then t
    else
      var s := OnClose(t, k);
      Put(s, k, s.clients[k].(closings := s.clients[k].closings + 1))
  }

  datatype Action =
    | Opened(ep: Endpoint, ssl: bool)
    | ReadOk(k: nat, data: S.Bytes)
    | ReadErr(k: nat, ec: Code)
    | RunWriting(k: nat)
    | WriteOk(k: nat, op: nat)
    | WriteErr(k: nat, op: nat, ec: Code)
    | RunClosing(k: nat)
    | RequestClose(ep: Endpoint)
    | RequestWrite(ep: Endpoint, data: S.Bytes)

  predicate Enabled(r: Registry, a: Action) {
    && EntriesInRange(r)
    && match a
       case Opened(_, _) => true
       case ReadOk(k, _) => k < |r.clients| && r.clients[k].reading
       case ReadErr(k, _) => k < |r.clients| && r.clients[k].reading
       case RunWriting(k) => k < |r.clients| && r.clients[k].q.posted != []
       case WriteOk(k, op) => k < |r.clients| && op < |r.clients[k].q.inFlight| && r.clients[k].q.queue != []
       case WriteErr(k, op, _) => k < |r.clients| && op < |r.clients[k].q.inFlight|
       case RunClosing(k) => k < |r.clients| && r.clients[k].closings > 0
       case RequestClose(_) => true
       case RequestWrite(_, _) => true
  }

  function Step(r: Registry, a: Action): Registry
    requires Enabled(r, a)
  {
    match a
    case Opened(ep, ssl) =>  // the container's callback and the status, then on_open, then do_read
      SendStatus(r.(clients := r.clients + [Fresh(ep, ssl)], entries := r.entries[ep := |r.clients|]))
    case ReadOk(k, data) => Put(r, k, r.clients[k].(got := r.clients[k].got + [data]))
    case ReadErr(k, ec) => Fail(Put(r, k, r.clients[k].(reading := false)), k, ec)
    case RunWriting(k) => Put(r, k, r.clients[k].(q := Q.AfterWriting(r.clients[k].q)))
    case WriteOk(k, op) => Put(r, k, r.clients[k].(q := Q.AfterOnWrite(r.clients[k].q, op, true)))
    case WriteErr(k, op, ec) =>
      Fail(Put(r, k, r.clients[k].(q := Q.AfterOnWrite(r.clients[k].q, op, false))), k, ec)
    case RunClosing(k) => Put(r, k, r.clients[k].(closings := r.clients[k].closings - 1))
    case RequestClose(ep) =>
      if ep in r.entries then
        var k := r.entries[ep];
        Close(Put(r, k, r.clients[k].(closed := true)), ep).(untold := r.untold + {ep})
      else r
    case RequestWrite(ep, data) =>
      if ep in r.entries then
        var k := r.entries[ep];
        Put(r, k, r.clients[k].(q := Q.AfterWrite(r.clients[k].q, data)))
      else r
  }

  // ---------- Assumptions on endpoints ----------

  /** No completion or task of the client is outstanding. */
  predicate Drained(c: Client) {
    !c.reading && c.q.posted == [] && c.q.inFlight == []
  }

  /** The client has failed and closed itself, or was closed on request. */
  predicate Gone(c: Client) {
    c.closes > 0 || c.closed
  }

  /** The operating system hands out `ep` only when every earlier owner is gone and drained. */
  predicate Available(r: Registry, ep: Endpoint) {
    forall k :: 0 <= k < |r.clients| && r.clients[k].local == ep ==> Gone(r.clients[k]) && Drained(r.clients[k])
  }

  predicate CanRun(r: Registry, acts: seq<Action>)
    decreases |acts|
  {
    acts == [] || (Enabled(r, acts[0]) && CanRun(Step(r, acts[0]), acts[1..]))
  }

  function Run(r: Registry, acts: seq<Action>): Registry
    requires CanRun(r, acts)
    decreases |acts|
  {
    if acts == [] then r else Run(Step(r, acts[0]), acts[1..])
  }

  /** Every endpoint opened during the run was available at that moment. */
  predicate NoEarlyReuse(r: Registry, acts: seq<Action>)
    requires CanRun(r, acts)
    decreases |acts|
  {
    acts == [] ||
    ((acts[0].Opened? ==> Available(r, acts[0].ep)) && NoEarlyReuse(Step(r, acts[0]), acts[1..]))
  }

  // ---------- The invariant ----------

  predicate AllRefused(ends: seq<Code>) {
    forall i :: 0 <= i < |ends| ==> ends[i] == Refused
  }

  /** Which chains have ended: the read chain when no read is outstanding, the write chain when a write
      has failed. */
  function Ended(c: Client): nat {
    (if c.reading then 0 else 1) + c.q.failures
  }

  /** Every chain that ended is recorded, and `on_close` has run unless all of them were refused. */
  ghost predicate ChainsInv(c: Client) {
    && Q.Inv(c.q)
    && |c.ends| == Ended(c)
    && (c.closes == 0 <==> AllRefused(c.ends))
  }

  ghost predicate ClientInv(r: Registry, k: nat)
    requires k < |r.clients|
  {
    var c := r.clients[k];
    && ChainsInv(c)
    && (!Gone(c) ==> c.local in r.entries && r.entries[c.local] == k)
    && (forall j :: 0 <= j < k && r.clients[j].local == c.local ==> Gone(r.clients[j]) && Drained(r.clients[j]))
  }

  ghost predicate EntryInv(r: Registry, ep: Endpoint)
    requires ep in r.entries
  {
    var k := r.entries[ep];
    k < |r.clients| && r.clients[k].local == ep && !Gone(r.clients[k])
  }

  ghost predicate Inv(r: Registry) {
    && (forall ep :: ep in r.entries ==> EntryInv(r, ep))
    && (forall k :: 0 <= k < |r.clients| ==> ClientInv(r, k))
  }

  /** The registered client is the newest with its endpoint. */
  lemma LaterSameEndpoint(r: Registry, j: nat, k: nat)
    requires Inv(r) && j < |r.clients| && k < |r.clients| && j != k
    requires r.clients[j].local == r.clients[k].local
    ensures if j < k then Gone(r.clients[j]) && Drained(r.clients[j]) else Gone(r.clients[k]) && Drained(r.clients[k])
  {
    assert ClientInv(r, j) && ClientInv(r, k);
  }

  /** Changing a client without reviving or removing it. */
  lemma PutKeepsInv(r: Registry, k: nat, c: Client)
    requires Inv(r) && k < |r.clients|
    requires c.local == r.clients[k].local && Gone(c) == Gone(r.clients[k]) && ChainsInv(c)
    requires Drained(r.clients[k]) ==> Drained(c)
    ensures var s := Put(r, k, c); Inv(s) && OthersKept(r, s, k) && s.entries == r.entries
  {
    var s := Put(r, k, c);
    hide ChainsInv, Gone, Drained;
    forall ep | ep in s.entries ensures EntryInv(s, ep) {
      assert EntryInv(r, ep);
    }
    forall i | 0 <= i < |s.clients| ensures ClientInv(s, i) {
      assert ClientInv(r, i);
    }
  }

  /** What `on_close` does to the registry, client by client. */
  lemma OnCloseShape(r: Registry, k: nat)
    requires k < |r.clients| && EntriesInRange(r)
    ensures var s, ep := OnClose(r, k), r.clients[k].local;
      && s.entries == r.entries - {ep}
      && |s.clients| == |r.clients|
      && (forall i :: 0 <= i < |r.clients| ==>
            s.clients[i] == Closing(if i == k then r.clients[k].(closes := r.clients[k].closes + 1) else r.clients[i],
                                    ep in r.entries && r.entries[ep] == i))
  {
  }

  /** A client, asked to close or not. */
  function Closing(c: Client, asked: bool): Client {
    if asked then c.(closings := c.closings + 1) else c
  }

  /** No client but `k` differs. */
  ghost predicate OthersKept(r: Registry, s: Registry, k: nat) {
    |s.clients| == |r.clients| && forall j :: 0 <= j < |r.clients| && j != k ==> s.clients[j] == r.clients[j]
  }

  /** A client with something outstanding that has just become `c` closes itself: its own entry goes if
      it still has one, nobody else's does, and no other client is asked to close. */
  lemma OnCloseEffect(r: Registry, k: nat, c: Client)
    requires Inv(r) && k < |r.clients| && !Drained(r.clients[k])
    requires c.local == r.clients[k].local && Gone(c) == Gone(r.clients[k])
    ensures EntriesInRange(Put(r, k, c))
    ensures var s := OnClose(Put(r, k, c), k);
      && s.entries == (if Gone(c) then r.entries else r.entries - {c.local})
      && OthersKept(r, s, k)
      && s.clients[k] == Closing(c.(closes := c.closes + 1), !Gone(c))
  {
    assert forall ep :: ep in r.entries ==> EntryInv(r, ep);
    assert ClientInv(r, k);
    if c.local in r.entries {
      assert EntryInv(r, c.local);
      if r.entries[c.local] != k {
        LaterSameEndpoint(r, r.entries[c.local], k);
      }
    }
    OnCloseShape(Put(r, k, c), k);
    hide OnClose, ClientInv, EntryInv, Drained, Inv;
  }

  /** Removing the entry of a client that is gone now. */
  lemma RemovalKeepsInv(r: Registry, s: Registry, k: nat)
    requires Inv(r) && k < |r.clients| && OthersKept(r, s, k)
    requires s.entries == if Gone(r.clients[k]) then r.entries else r.entries - {r.clients[k].local}
    requires s.clients[k].local == r.clients[k].local && Gone(s.clients[k]) && ChainsInv(s.clients[k])
    requires Drained(r.clients[k]) ==> Drained(s.clients[k])
    ensures Inv(s)
  {
    hide ChainsInv, Drained;
    assert ClientInv(r, k);
    forall ep | ep in s.entries ensures EntryInv(s, ep) {
      assert EntryInv(r, ep);
    }
    forall i | 0 <= i < |s.clients| ensures ClientInv(s, i) {
      assert ClientInv(r, i);
      if i != k && s.clients[i].local == s.clients[k].local {
        LaterSameEndpoint(r, i, k);
      }
    }
  }

  lemma OnCloseKeepsInv(r: Registry, k: nat, c: Client)
    requires Inv(r) && k < |r.clients| && !Drained(r.clients[k]) && ChainsInv(c.(closes := c.closes + 1))
    requires c.local == r.clients[k].local && Gone(c) == Gone(r.clients[k])
    ensures EntriesInRange(Put(r, k, c))
    ensures var s := OnClose(Put(r, k, c), k);
      && Inv(s)
      && s.entries == (if Gone(c) then r.entries else r.entries - {c.local})
      && OthersKept(r, s, k)
  {
    OnCloseEffect(r, k, c);
    MoreClosings(c.(closes := c.closes + 1));
    hide Inv, ChainsInv, OnClose, Drained, EntriesInRange, OthersKept;
    RemovalKeepsInv(r, OnClose(Put(r, k, c), k), k);
  }

  lemma MoreClosings(c: Client)
    requires ChainsInv(c)
    ensures ChainsInv(c.(closings := c.closings + 1))
  {
  }

  lemma EndRecorded(c: Client, ec: Code)
    requires Q.Inv(c.q) && |c.ends| + 1 == Ended(c) && (c.closes == 0 <==> AllRefused(c.ends))
    ensures var t := c.(ends := c.ends + [ec]);
      if ec == Refused then ChainsInv(t) else ChainsInv(t.(closes := t.closes + 1))
  {
    var ends := c.ends + [ec];
    assert ends[|c.ends|] == ec;
    assert forall i :: 0 <= i < |c.ends| ==> ends[i] == c.ends[i];
    hide Q.Inv;
  }

  lemma FailShape(r: Registry, k: nat, c: Client, ec: Code)
    requires k < |r.clients| && EntriesInRange(r)
    ensures EntriesInRange(Put(r, k, c))
    ensures var t := Put(r, k, c.(ends := c.ends + [ec])); var s := OnClose(t, k);
      Fail(Put(r, k, c), k, ec) ==
        if ec == Refused then t
        else if ec == Aborted || ec == Eof || (c.ssl && ec == Truncated) then s
        else Put(s, k, s.clients[k].(closings := s.clients[k].closings + 1))
  {
    var t := c.(ends := c.ends + [ec]);
    assert Put(Put(r, k, c), k, t) == Put(r, k, t);
    hide OnClose;
  }

  /** Client `k` has just become `c`, with a chain ended by `ec`. */
  lemma FailKeepsInv(r: Registry, k: nat, c: Client, ec: Code)
    requires Inv(r) && k < |r.clients| && !Drained(r.clients[k])
    requires Q.Inv(c.q) && |c.ends| + 1 == Ended(c) && (c.closes == 0 <==> AllRefused(c.ends))
    requires c.local == r.clients[k].local && Gone(c) == Gone(r.clients[k])
    ensures EntriesInRange(Put(r, k, c))
    ensures var s := Fail(Put(r, k, c), k, ec);
      Inv(s) && (Gone(c) ==> s.entries == r.entries) && OthersKept(r, s, k)
  {
    hide Inv, ChainsInv, AllRefused, Q.Inv, OnClose, Fail, Ended, EntriesInRange, Drained;
    var t := c.(ends := c.ends + [ec]);
    StaysInRange(r, k, c);
    FailShape(r, k, c, ec);
    EndRecorded(c, ec);
    assert Gone(t) == Gone(c);
    if ec == Refused {
      PutKeepsInv(r, k, t);
    } else {
      OnCloseKeepsInv(r, k, t);
      AskedKeepsInv(r, OnClose(Put(r, k, t), k), k);
    }
  }

  lemma StaysInRange(r: Registry, k: nat, c: Client)
    requires Inv(r) && k < |r.clients|
    ensures EntriesInRange(r) && EntriesInRange(Put(r, k, c))
  {
    assert forall ep :: ep in r.entries ==> EntryInv(r, ep);
  }

  lemma AskedKeepsInv(r: Registry, s: Registry, k: nat)
    requires Inv(s) && k < |s.clients| && OthersKept(r, s, k)
    ensures var t := Put(s, k, s.clients[k].(closings := s.clients[k].closings + 1));
      Inv(t) && OthersKept(r, t, k) && t.entries == s.entries
  {
    hide Inv, ChainsInv;
    ClientChainsInv(s, k);
    MoreClosings(s.clients[k]);
    PutKeepsInv(s, k, s.clients[k].(closings := s.clients[k].closings + 1));
  }

  lemma ClientChainsInv(r: Registry, k: nat)
    requires Inv(r) && k < |r.clients|
    ensures ChainsInv(r.clients[k])
  {
    assert ClientInv(r, k);
  }

  lemma FreshInv(ep: Endpoint, ssl: bool)
    ensures ChainsInv(Fresh(ep, ssl)) && !Gone(Fresh(ep, ssl))
  {
  }

  lemma OpenedKeepsInv(r: Registry, ep: Endpoint, ssl: bool)
    requires Inv(r) && Enabled(r, Opened(ep, ssl)) && Available(r, ep)
    ensures Inv(Step(r, Opened(ep, ssl)))
  {
    hide ChainsInv, Drained, Gone, Q.Inv, Q.Empty;
    var s := Step(r, Opened(ep, ssl));
    var n := |r.clients|;
    assert forall i :: 0 <= i < n ==> s.clients[i] == r.clients[i];
    FreshInv(ep, ssl);
    forall e | e in s.entries ensures EntryInv(s, e) {
      assert e != ep ==> EntryInv(r, e);
    }
    forall i | 0 <= i < |s.clients| ensures ClientInv(s, i) {
      assert i < n ==> ClientInv(r, i);
    }
  }

  lemma RequestCloseKeepsInv(r: Registry, ep: Endpoint)
    requires Inv(r) && Enabled(r, RequestClose(ep))
    ensures Inv(Step(r, RequestClose(ep)))
  {
    if ep in r.entries {
      assert EntryInv(r, ep);
      ClientChainsInv(r, r.entries[ep]);
      hide Inv, Q.Inv, AllRefused;
      RemovalKeepsInv(r, Step(r, RequestClose(ep)), r.entries[ep]);
    }
  }

  lemma StepKeepsInv(r: Registry, a: Action)
    requires Inv(r) && Enabled(r, a) && (a.Opened? ==> Available(r, a.ep))
    ensures Inv(Step(r, a))
  {
    hide Inv, Q.Inv, AllRefused, Fail, Put;
    match a
    case Opened(ep, ssl) => OpenedKeepsInv(r, ep, ssl);
    case ReadOk(k, data) =>
      ClientChainsInv(r, k);
      PutKeepsInv(r, k, r.clients[k].(got := r.clients[k].got + [data]));
    case ReadErr(k, ec) => ReadErrKeepsInv(r, k, ec);
    case RunWriting(k) => QueueStepKeepsInv(r, k, Q.Execute);
    case WriteOk(k, op) => QueueStepKeepsInv(r, k, Q.Finish(op, true));
    case WriteErr(k, op, ec) => WriteErrKeepsInv(r, k, op, ec);
    case RunClosing(k) =>
      ClientChainsInv(r, k);
      PutKeepsInv(r, k, r.clients[k].(closings := r.clients[k].closings - 1));
    case RequestClose(ep) => RequestCloseKeepsInv(r, ep);
    case RequestWrite(ep, data) =>
      if ep in r.entries {
        RequestWriteKeepsInv(r, ep, data);
      }
  }

  lemma ReadErrKeepsInv(r: Registry, k: nat, ec: Code)
    requires Inv(r) && Enabled(r, ReadErr(k, ec))
    ensures Inv(Step(r, ReadErr(k, ec)))
    ensures OthersKept(r, Step(r, ReadErr(k, ec)), k)
    ensures Gone(r.clients[k]) ==> Step(r, ReadErr(k, ec)).entries == r.entries
  {
    ClientChainsInv(r, k);
    hide Inv, Q.Inv, AllRefused, Fail;
    FailKeepsInv(r, k, r.clients[k].(reading := false), ec);
  }

  lemma WriteErrKeepsInv(r: Registry, k: nat, op: nat, ec: Code)
    requires Inv(r) && Enabled(r, WriteErr(k, op, ec))
    ensures Inv(Step(r, WriteErr(k, op, ec)))
    ensures OthersKept(r, Step(r, WriteErr(k, op, ec)), k)
    ensures Gone(r.clients[k]) ==> Step(r, WriteErr(k, op, ec)).entries == r.entries
  {
    ClientChainsInv(r, k);
    var c := r.clients[k];
    Q.StepKeepsInv(c.q, Q.Finish(op, false));
    hide Inv, Q.Inv, AllRefused, Fail;
    FailKeepsInv(r, k, c.(q := Q.AfterOnWrite(c.q, op, false)), ec);
  }

  /** The queue of a client that is not drained, or that a message was just given to, moves on. */
  lemma QueueStepKeepsInv(r: Registry, k: nat, a: Q.Action<S.Bytes>)
    requires Inv(r) && k < |r.clients| && Q.Enabled(r.clients[k].q, a)
    requires !Drained(r.clients[k]) && (a.Finish? ==> a.ok)
    ensures Inv(Put(r, k, r.clients[k].(q := Q.Step(r.clients[k].q, a))))
  {
    ClientChainsInv(r, k);
    Q.StepKeepsInv(r.clients[k].q, a);
    assert Q.Step(r.clients[k].q, a).failures == r.clients[k].q.failures;
    hide Inv, Q.Inv, AllRefused, Q.Step;
    PutKeepsInv(r, k, r.clients[k].(q := Q.Step(r.clients[k].q, a)));
  }

  lemma RequestWriteKeepsInv(r: Registry, ep: Endpoint, data: S.Bytes)
    requires Inv(r) && ep in r.entries
    ensures EntriesInRange(r) && Inv(Step(r, RequestWrite(ep, data)))
  {
    assert EntryInv(r, ep);
    assert forall e :: e in r.entries ==> EntryInv(r, e);
    var k := r.entries[ep];
    var c := r.clients[k];
    var t := c.(q := Q.AfterWrite(c.q, data));
    var s := Put(r, k, t);
    ClientChainsInv(r, k);
    Q.StepKeepsInv(c.q, Q.Submit(data));
    hide Q.Inv, AllRefused;
    assert ChainsInv(t);
    hide ChainsInv;
    forall e | e in s.entries ensures EntryInv(s, e) {
      assert EntryInv(r, e);
    }
    forall i | 0 <= i < |s.clients| ensures ClientInv(s, i) {
      assert ClientInv(r, i);
    }
  }

  lemma {:induction false} RunKeepsInv(r: Registry, acts: seq<Action>)
    requires Inv(r) && CanRun(r, acts) && NoEarlyReuse(r, acts)
    ensures Inv(Run(r, acts))
    decreases |acts|
  {
    hide Inv, Step, Enabled, Available;
    if acts != [] {
      StepKeepsInv(r, acts[0]);
      RunKeepsInv(Step(r, acts[0]), acts[1..]);
    }
  }

  // ---------- Theorems ----------

  /** As long as endpoints are not handed out early, each entry is keyed by the endpoint its client
      saved, and a client has an entry if and only if it was not closed on request and no chain of it
      has ended with any code but a refused connection. */
  lemma RegistryIsOpenClients(acts: seq<Action>)
    requires CanRun(Start(), acts) && NoEarlyReuse(Start(), acts)
    ensures var r := Run(Start(), acts);
      && (forall ep :: ep in r.entries ==> r.entries[ep] < |r.clients| && r.clients[r.entries[ep]].local == ep)
      && (forall k: nat :: k < |r.clients| ==>
            ((exists ep :: ep in r.entries && r.entries[ep] == k)
             <==> !r.clients[k].closed && AllRefused(r.clients[k].ends)))
      && (forall k: nat :: k < |r.clients| ==>
            |r.clients[k].ends| == (if r.clients[k].reading then 0 else 1) + r.clients[k].q.failures)
  {
    RunKeepsInv(Start(), acts);
    var r := Run(Start(), acts);
    hide Run, CanRun, NoEarlyReuse, AllRefused, Q.Inv;
    forall ep | ep in r.entries ensures r.entries[ep] < |r.clients| && r.clients[r.entries[ep]].local == ep {
      assert EntryInv(r, ep);
    }
    forall k: nat | k < |r.clients|
      ensures (exists ep :: ep in r.entries && r.entries[ep] == k)
        <==> !r.clients[k].closed && AllRefused(r.clients[k].ends)
      ensures |r.clients[k].ends| == (if r.clients[k].reading then 0 else 1) + r.clients[k].q.failures
    {
      assert ClientInv(r, k);
      if ep :| ep in r.entries && r.entries[ep] == k {
        assert EntryInv(r, ep);
      }
    }
  }

  /** The exception is real: a client whose read was refused reads no more and stays registered. */
  lemma RefusedStaysRegistered() returns (acts: seq<Action>)
    ensures CanRun(Start(), acts) && NoEarlyReuse(Start(), acts)
    ensures var r := Run(Start(), acts);
      && |r.clients| == 1 && !r.clients[0].reading && r.clients[0].ends == [Refused]
      && r.entries == map["a" := 0]
  {
    var s1 := Step(Start(), Opened("a", false));
    acts := [];
    assert Step(s1, ReadErr(0, Refused)).entries == map["a" := 0];
    acts := Prepend(s1, ReadErr(0, Refused), acts);
    acts := Prepend(Start(), Opened("a", false), acts);
  }

  ghost predicate StatusInv(r: Registry) {
    if r.statuses == [] then r.entries == map[]
    else r.statuses[|r.statuses| - 1] == r.entries.Keys + r.untold && r.entries.Keys !! r.untold
  }

  lemma StepKeepsStatusInv(r: Registry, a: Action)
    requires StatusInv(r) && Enabled(r, a)
    ensures StatusInv(Step(r, a))
  {
    hide Q.AfterOnWrite, Q.AfterWriting;
    if a.ReadErr? {
      FailKeepsStatusInv(r, a.k, r.clients[a.k].(reading := false), a.ec);
    } else if a.WriteErr? {
      var c := r.clients[a.k];
      FailKeepsStatusInv(r, a.k, c.(q := Q.AfterOnWrite(c.q, a.op, false)), a.ec);
    }
    hide Fail;
  }

  lemma FailKeepsStatusInv(r: Registry, k: nat, c: Client, ec: Code)
    requires StatusInv(r) && k < |r.clients| && EntriesInRange(r)
    ensures EntriesInRange(Put(r, k, c)) && StatusInv(Fail(Put(r, k, c), k, ec))
  {
    FailShape(r, k, c, ec);
    hide Fail;
  }

  lemma {:induction false} RunKeepsStatusInv(r: Registry, acts: seq<Action>)
    requires StatusInv(r) && CanRun(r, acts)
    ensures StatusInv(Run(r, acts))
    decreases |acts|
  {
    hide StatusInv, Step, Enabled;
    if acts != [] {
      StepKeepsStatusInv(r, acts[0]);
      RunKeepsStatusInv(Step(r, acts[0]), acts[1..]);
    }
  }

  /** Whatever happens, the last status message names the endpoints registered now and those closed on
      request since; so it is up to date if and only if there are none of these. */
  lemma StatusIsCurrentIff(acts: seq<Action>)
    requires CanRun(Start(), acts) && Run(Start(), acts).statuses != []
    ensures var r := Run(Start(), acts); var told := r.statuses[|r.statuses| - 1];
      told == r.entries.Keys + r.untold && (told == r.entries.Keys <==> r.untold == {})
  {
    RunKeepsStatusInv(Start(), acts);
  }

  /** A repeated `on_close` changes nothing: once a client is gone, whatever else of it fails leaves
      the registry and every other client as they are. */
  lemma RepeatedCloseIsHarmless(acts: seq<Action>, a: Action)
    requires CanRun(Start(), acts) && NoEarlyReuse(Start(), acts)
    requires Enabled(Run(Start(), acts), a) && (a.ReadErr? || a.WriteErr?)
    requires Gone(Run(Start(), acts).clients[a.k])
    ensures var r := Run(Start(), acts); var s := Step(r, a);
      s.entries == r.entries && OthersKept(r, s, a.k)
  {
    RunKeepsInv(Start(), acts);
    var r := Run(Start(), acts);
    hide Run, CanRun, NoEarlyReuse;
    if a.ReadErr? {
      ReadErrKeepsInv(r, a.k, a.ec);
    } else {
      WriteErrKeepsInv(r, a.k, a.op, a.ec);
    }
  }

  /** In any state at all, the close callback of a client that is gone touches the registry if and
      only if somebody is registered under its old endpoint. */
  lemma StaleCloseEvicts(r: Registry, k: nat)
    requires k < |r.clients| && EntriesInRange(r)
    ensures OnClose(r, k).entries != r.entries <==> r.clients[k].local in r.entries
  {
  }

  /** The assumption is needed: if the endpoint is handed out while a write of its old owner is still
      outstanding, the old owner's failure removes and closes the new one. */
  lemma EarlyReuseEvictsNewOwner() returns (acts: seq<Action>)
    ensures CanRun(Start(), acts) && !NoEarlyReuse(Start(), acts)
    ensures var r := Run(Start(), acts);
      && r.entries == map[]
      && |r.clients| == 2 && !Gone(r.clients[1]) && r.clients[1].reading && r.clients[1].closings == 1
  {
    var s1 := Step(Start(), Opened("a", false));
    var s2 := Step(s1, RequestWrite("a", [1]));
    var s3 := Step(s2, RunWriting(0));
    acts := ReuseAndFail(Step(s3, ReadErr(0, Eof)));
    acts := Prepend(s3, ReadErr(0, Eof), acts);
    acts := Prepend(s2, RunWriting(0), acts);
    acts := Prepend(s1, RequestWrite("a", [1]), acts);
    acts := Prepend(Start(), Opened("a", false), acts);
  }

  /** The second half of that run: the only client so far is gone but has a write outstanding. */
  lemma ReuseAndFail(r: Registry) returns (acts: seq<Action>)
    requires |r.clients| == 1 && r.entries == map[]
    requires r.clients[0].local == "a" && |r.clients[0].q.inFlight| == 1 && !r.clients[0].ssl
    ensures CanRun(r, acts) && !NoEarlyReuse(r, acts)
    ensures var s := Run(r, acts);
      && s.entries == map[]
      && |s.clients| == 2 && !Gone(s.clients[1]) && s.clients[1].reading && s.clients[1].closings == 1
  {
    var r1 := Step(r, Opened("a", false));
    var a := WriteErr(0, 0, Aborted);
    var c := r1.clients[0];
    assert Enabled(r1, a);
    FailShape(r1, 0, c.(q := Q.AfterOnWrite(c.q, 0, false)), Aborted);
    hide Fail, Available;
    var last := Step(r1, a);
    assert |last.clients| == 2 && last.clients[1] == Closing(Fresh("a", false), true);
    assert !Drained(r.clients[0]);
    acts := [];
    acts := Prepend(r1, a, acts);
    assert !Available(r, "a") by {
      NotAvailable(r, "a", 0);
    }
    acts := Prepend(r, Opened("a", false), acts);
  }

  lemma NotAvailable(r: Registry, ep: Endpoint, k: nat)
    requires k < |r.clients| && r.clients[k].local == ep && !Drained(r.clients[k])
    ensures !Available(r, ep)
  {
  }

  lemma Prepend(r: Registry, a: Action, rest: seq<Action>) returns (acts: seq<Action>)
    requires Enabled(r, a) && CanRun(Step(r, a), rest)
    ensures CanRun(r, acts) && Run(r, acts) == Run(Step(r, a), rest)
    ensures NoEarlyReuse(r, acts) <==> (a.Opened? ==> Available(r, a.ep)) && NoEarlyReuse(Step(r, a), rest)
  {
    acts := [a] + rest;
    assert acts[1..] == rest;
  }
}
