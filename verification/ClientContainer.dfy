/**
 The container of TCP clients and the clients' handlers as objects, each handler proved to be the
 step of `ClientRegistry`. Clients are numbered in the order they opened; the numbers stand for the
 shared pointers that the container and the close callbacks hold.
 */
module ClientContainer {
  import Q = WriteQueue
  import S = Stream
  import R = ClientRegistry

  type Endpoint = R.Endpoint

  class Client {
    const ssl: bool
    const out: Q.Writer<S.Bytes>
    var local: Endpoint
    var reading: bool
    var closings: nat
    ghost var closes: nat
    ghost var closed: bool
    ghost var ends: seq<R.Code>
    ghost var got: seq<S.Bytes>

    /** A client whose connection has just opened: `on_open` saves the endpoint, `do_read` starts. */
    constructor (ssl: bool, local: Endpoint)
      ensures fresh(out) && State() == R.Fresh(local, ssl)
    {
      this.ssl, this.local, reading, closings := ssl, local, true, 0;
      closes, closed, ends, got := 0, false, [], [];
      var writer := new Q.Writer<S.Bytes>();
      out := writer;
    }

    ghost function State(): R.Client
      reads this, out
    {
      R.Client(ssl, local, out.State(), reading, closings, closes, closed, ends, got)
    }
  }

  class Container {
    var clients: seq<Client>
    var entries: map<Endpoint, nat>   // `clients_`
    ghost var statuses: seq<set<Endpoint>>
    ghost var untold: set<Endpoint>

    ghost predicate Valid()
      reads this, clients
    {
      && (forall ep :: ep in entries ==> entries[ep] < |clients|)
      && (forall i, j :: 0 <= i < |clients| && 0 <= j < |clients| && i != j ==>
            clients[i] != clients[j] && clients[i].out != clients[j].out)
    }

    ghost function Outs(): set<Q.Writer<S.Bytes>>
      reads this, clients
    {
      set i | 0 <= i < |clients| :: clients[i].out
    }

    ghost function Abs(): R.Registry
      reads this, clients, Outs()
    {
      R.Registry(seq(|clients|, i requires 0 <= i < |clients| reads this, clients, Outs() => clients[i].State()),
                 entries, statuses, untold)
    }

    constructor ()
      ensures Valid() && Abs() == R.Start()
    {
      clients, entries, statuses, untold := [], map[], [], {};
    }

    /** The endpoints of a status message are those of the map, as `endpoints` lists them. */
    method SendStatus()
      requires Valid()
      modifies this`statuses, this`untold
      ensures Valid() && Abs() == R.SendStatus(old(Abs()))
    {
      statuses, untold := statuses + [entries.Keys], {};
    }

    method Opened(ep: Endpoint, ssl: bool)
      requires Valid()
      modifies this
      ensures Valid() && R.Enabled(old(Abs()), R.Opened(ep, ssl))
      ensures Abs() == R.Step(old(Abs()), R.Opened(ep, ssl))
      ensures forall c :: c in clients ==> c in old(clients) || (fresh(c) && fresh(c.out))
    {
      var client := new Client(ssl, ep);
      entries := entries[ep := |clients|];
      clients := clients + [client];
      SendStatus();
      assert Abs().clients == old(Abs()).clients + [client.State()];
    }

    method Close(ep: Endpoint) returns (ec: R.Error)
      requires Valid()
      modifies this`entries, clients
      ensures Valid() && Abs() == R.Close(old(Abs()), ep)
      ensures ec == if ep in old(entries) then R.NoError else R.NotConnected
    {
      if ep !in entries {
        return R.NotConnected;
      }
      var k := entries[ep];
      clients[k].closings := clients[k].closings + 1;
      entries := entries - {ep};
      assert Abs().clients == R.Close(old(Abs()), ep).clients;
      ec := R.NoError;
    }

    method RequestClose(ep: Endpoint) returns (ec: R.Error)
      requires Valid()
      modifies this`entries, this`untold, clients
      ensures Valid() && ec == if ep in old(entries) then R.NoError else R.NotConnected
      ensures R.Enabled(old(Abs()), R.RequestClose(ep)) && Abs() == R.Step(old(Abs()), R.RequestClose(ep))
    {
      if ep in entries {
        ghost var k := entries[ep];
        clients[k].closed := true;
        assert Abs().clients == R.Put(old(Abs()), k, old(Abs()).clients[k].(closed := true)).clients;
      }
      ec := Close(ep);
      if ec == R.NoError {
        untold := untold + {ep};
      }
    }

    method RequestWrite(ep: Endpoint, data: S.Bytes) returns (ec: R.Error)
      requires Valid()
      modifies if ep in entries && entries[ep] < |clients| then {clients[entries[ep]].out} else {}
      ensures Valid() && ec == if ep in old(entries) then R.NoError else R.NotConnected
      ensures R.Enabled(old(Abs()), R.RequestWrite(ep, data)) && Abs() == R.Step(old(Abs()), R.RequestWrite(ep, data))
    {
      if ep !in entries {
        return R.NotConnected;
      }
      var k := entries[ep];
      clients[k].out.Write(data);
      assert Abs().clients == R.Step(old(Abs()), R.RequestWrite(ep, data)).clients;
      ec := R.NoError;
    }

    /** `on_close`, through the client's close callback. */
    method OnClose(k: nat)
      requires Valid() && k < |clients|
      modifies this`entries, this`statuses, this`untold, clients
      ensures Valid() && R.EntriesInRange(old(Abs())) && Abs() == R.OnClose(old(Abs()), k)
    {
      clients[k].closes := clients[k].closes + 1;
      ghost var c := old(Abs()).clients[k];
      assert Abs().clients == R.Put(old(Abs()), k, c.(closes := c.closes + 1)).clients;
      var _ := Close(clients[k].local);
      SendStatus();
    }

    /** Bookkeeping: a chain of the client has ended with this code. */
    ghost method RecordEnd(k: nat, ec: R.Code)
      requires Valid() && k < |clients|
      modifies clients[k]
      ensures Valid() && Abs() == R.Put(old(Abs()), k, old(Abs()).clients[k].(ends := old(clients[k].ends) + [ec]))
    {
      clients[k].ends := clients[k].ends + [ec];
      assert Abs().clients
        == R.Put(old(Abs()), k, old(Abs()).clients[k].(ends := old(clients[k].ends) + [ec])).clients;
    }

    /** The client's own `close`, which posts `closing`. */
    method Ask(k: nat)
      requires Valid() && k < |clients|
      modifies clients[k]
      ensures Valid()
      ensures Abs() == R.Put(old(Abs()), k, old(Abs()).clients[k].(closings := old(clients[k].closings) + 1))
    {
      clients[k].closings := clients[k].closings + 1;
      assert Abs().clients
        == R.Put(old(Abs()), k, old(Abs()).clients[k].(closings := old(clients[k].closings) + 1)).clients;
    }

    method Fail(k: nat, ec: R.Code)
      requires Valid() && k < |clients|
      modifies this`entries, this`statuses, this`untold, clients
      ensures Valid() && R.EntriesInRange(old(Abs())) && Abs() == R.Fail(old(Abs()), k, ec)
    {
      hide R.OnClose, R.Put, R.EntriesInRange;
      assert R.EntriesInRange(Abs()) by {
        InRange();
      }
      RecordEnd(k, ec);
      if ec == R.Aborted || ec == R.Eof {
        OnClose(k);
        return;
      }
      if clients[k].ssl && ec == R.Truncated {
        OnClose(k);
        return;
      }
      if ec == R.Refused {
        return;
      }
      OnClose(k);
      Ask(k);
    }

    lemma InRange()
      requires Valid()
      ensures R.EntriesInRange(Abs())
    {
    }

    method OnRead(k: nat, data: S.Bytes)
      requires Valid() && k < |clients| && clients[k].reading
      modifies clients[k]
      ensures Valid() && R.Enabled(old(Abs()), R.ReadOk(k, data)) && Abs() == R.Step(old(Abs()), R.ReadOk(k, data))
    {
      clients[k].reading := false;
      clients[k].got := clients[k].got + [data];
      clients[k].reading := true;
      assert Abs().clients == R.Step(old(Abs()), R.ReadOk(k, data)).clients;
    }

    method OnReadFailed(k: nat, ec: R.Code)
      requires Valid() && k < |clients| && clients[k].reading
      modifies this`entries, this`statuses, this`untold, clients
      ensures Valid() && R.Enabled(old(Abs()), R.ReadErr(k, ec)) && Abs() == R.Step(old(Abs()), R.ReadErr(k, ec))
    {
      hide R.Fail;
      clients[k].reading := false;
      assert Abs().clients == R.Put(old(Abs()), k, old(Abs()).clients[k].(reading := false)).clients;
      Fail(k, ec);
    }

    method Writing(k: nat)
      requires Valid() && k < |clients| && clients[k].out.posted != []
      modifies clients[k].out
      ensures Valid() && R.Enabled(old(Abs()), R.RunWriting(k)) && Abs() == R.Step(old(Abs()), R.RunWriting(k))
    {
      hide Q.AfterWriting;
      clients[k].out.Writing();
      assert Abs().clients == R.Step(old(Abs()), R.RunWriting(k)).clients;
    }

    method OnWrite(k: nat, op: nat)
      requires Valid() && k < |clients| && op < |clients[k].out.inFlight| && clients[k].out.queue != []
      modifies clients[k].out
      ensures Valid() && R.Enabled(old(Abs()), R.WriteOk(k, op)) && Abs() == R.Step(old(Abs()), R.WriteOk(k, op))
    {
      hide Q.AfterOnWrite;
      clients[k].out.OnWrite(op, true);
      assert Abs().clients == R.Step(old(Abs()), R.WriteOk(k, op)).clients;
    }

    method OnWriteFailed(k: nat, op: nat, ec: R.Code)
      requires Valid() && k < |clients| && op < |clients[k].out.inFlight|
      modifies this`entries, this`statuses, this`untold, clients, clients[k].out
      ensures Valid() && R.Enabled(old(Abs()), R.WriteErr(k, op, ec))
      ensures Abs() == R.Step(old(Abs()), R.WriteErr(k, op, ec))
    {
      hide R.Fail, Q.AfterOnWrite;
      ghost var c := Abs().clients[k];
      clients[k].out.OnWrite(op, false);
      assert Abs().clients == R.Put(old(Abs()), k, c.(q := Q.AfterOnWrite(c.q, op, false))).clients;
      Fail(k, ec);
    }

    /** A posted `closing` runs; what it does to the socket shows in how operations complete. */
    method RunClosing(k: nat)
      requires Valid() && k < |clients| && clients[k].closings > 0
      modifies clients[k]
      ensures Valid() && R.Enabled(old(Abs()), R.RunClosing(k)) && Abs() == R.Step(old(Abs()), R.RunClosing(k))
    {
      clients[k].closings := clients[k].closings - 1;
      assert Abs().clients == R.Step(old(Abs()), R.RunClosing(k)).clients;
    }

    /** Any one action, on the objects. */
    method Perform(a: R.Action)
      requires Valid() && R.Enabled(Abs(), a)
      modifies this, clients, Outs()
      ensures Valid() && R.Enabled(old(Abs()), a) && Abs() == R.Step(old(Abs()), a)
      ensures forall c :: c in clients ==> c in old(clients) || (fresh(c) && fresh(c.out))
    {
      hide R.Step;
      match a
      case Opened(ep, ssl) => Opened(ep, ssl);
      case ReadOk(k, data) => OnRead(k, data);
      case ReadErr(k, ec) => OnReadFailed(k, ec);
      case RunWriting(k) => Writing(k);
      case WriteOk(k, op) => OnWrite(k, op);
      case WriteErr(k, op, ec) => OnWriteFailed(k, op, ec);
      case RunClosing(k) => RunClosing(k);
      case RequestClose(ep) => var _ := RequestClose(ep);
      case RequestWrite(ep, data) => var _ := RequestWrite(ep, data);
    }
  }

  /** The map of a container that has come through a run without early reuse holds exactly the clients
      not closed on request of which no chain ended but refused. */
  ghost predicate HoldsOpenClients(c: Container)
    requires c.Valid()
    reads c, c.clients
  {
    && (forall ep :: ep in c.entries ==> c.clients[c.entries[ep]].local == ep)
    && (forall k: nat :: k < |c.clients| ==>
          ((exists ep :: ep in c.entries && c.entries[ep] == k)
           <==> !c.clients[k].closed && R.AllRefused(c.clients[k].ends)))
  }

  lemma RunHoldsOpenClients(c: Container, acts: seq<R.Action>)
    requires R.CanRun(R.Start(), acts) && R.NoEarlyReuse(R.Start(), acts)
    requires c.Valid() && c.Abs() == R.Run(R.Start(), acts)
    ensures HoldsOpenClients(c)
  {
    hide R.Run, R.CanRun, R.NoEarlyReuse, R.AllRefused;
    var r := c.Abs();
    R.RegistryIsOpenClients(acts);
    assert forall k :: 0 <= k < |c.clients| ==> r.clients[k] == c.clients[k].State();
  }

  /** Any run, on the objects: their state at the end is that of the run, with what follows from it. */
  method Serve(acts: seq<R.Action>) returns (c: Container)
    requires R.CanRun(R.Start(), acts)
    ensures c.Valid() && c.Abs() == R.Run(R.Start(), acts)
    ensures R.NoEarlyReuse(R.Start(), acts) ==> HoldsOpenClients(c)
  {
    hide R.Step, R.Enabled, HoldsOpenClients;
    c := new Container();
    var i := 0;
    while i < |acts|
      invariant i <= |acts| && fresh(c) && c.Valid()
      invariant forall x :: x in c.clients ==> fresh(x) && fresh(x.out)
      invariant R.CanRun(c.Abs(), acts[i..]) && R.Run(c.Abs(), acts[i..]) == R.Run(R.Start(), acts)
    {
      assert acts[i..][1..] == acts[i + 1..];
      c.Perform(acts[i]);
      i := i + 1;
    }
    if R.NoEarlyReuse(R.Start(), acts) {
      RunHoldsOpenClients(c, acts);
    }
  }
}
