/**
 The UDP servers: a registry of sockets by local endpoint, each with a write queue of pairs of
 destination and data.
 */
module Datagrams {
  import Q = WriteQueue

  type Endpoint = string
  type Data = string

  datatype Datagram = Datagram(to: Endpoint, data: Data)

  datatype Error = NoError | NotConnected | BindFailed | CloseFailed

  /** The datagrams of `ds` that go to `to`. */
  function For(to: Endpoint, ds: seq<Datagram>): seq<Datagram> {
    if ds == [] then []
    else For(to, ds[..|ds| - 1]) + (if ds[|ds| - 1].to == to then [ds[|ds| - 1]] else [])
  }

  lemma {:induction false} ForOfPrefix(to: Endpoint, a: seq<Datagram>, b: seq<Datagram>)
    ensures For(to, a) <= For(to, a + b)
    decreases |b|
  {
    if b == [] {
      assert a + b == a;
    } else {
      ForOfPrefix(to, a, b[..|b| - 1]);
      assert (a + b)[..|a + b| - 1] == a + b[..|b| - 1];
    }
  }

  /** Whatever fails and however completions interleave, each destination is sent its own
      datagrams, in submission order and without a gap. */
  lemma EachDestinationInOrder(acts: seq<Q.Action<Datagram>>, to: Endpoint)
    requires Q.CanRun(Q.Empty<Datagram>(), acts)
    ensures For(to, Q.Run(Q.Empty<Datagram>(), acts).wire) <= For(to, Q.Submissions(acts))
  {
    var r := Q.Run(Q.Empty<Datagram>(), acts);
    Q.Conservation(acts);
    assert r.wire + (r.queue + r.posted) == r.wire + r.queue + r.posted;
    ForOfPrefix(to, r.wire, r.queue + r.posted);
  }

  /** `write` to several destinations: the same data once for each, in order. */
  function Addressed(tos: seq<Endpoint>, data: Data): seq<Datagram> {
    seq(|tos|, i requires 0 <= i < |tos| => Datagram(tos[i], data))
  }

  /** A server after one `write` for each of some datagrams. */
  function Written(q: Q.Queue<Datagram>, ds: seq<Datagram>): Q.Queue<Datagram> {
    q.(submitted := q.submitted + ds, posted := q.posted + ds)
  }

  // ---------- What each destination is sent ----------

  /** A request to write the data to each of some destinations. */
  datatype Request = Request(tos: seq<Endpoint>, data: Data)

  function Copies(to: Endpoint, data: Data, n: nat): seq<Datagram> {
    seq(n, _ => Datagram(to, data))
  }

  /** The data of the requests that list `to`, each as often as it is listed. */
  function Wanted(to: Endpoint, requests: seq<Request>): seq<Datagram> {
    if requests == [] then []
    else
      var r := requests[|requests| - 1];
      Wanted(to, requests[..|requests| - 1]) + Copies(to, r.data, multiset(r.tos)[to])
  }

  /** What the requests submit, one after the other. */
  function AddressedAll(requests: seq<Request>): seq<Datagram> {
    if requests == [] then []
    else
      var r := requests[|requests| - 1];
      AddressedAll(requests[..|requests| - 1]) + Addressed(r.tos, r.data)
  }

  lemma {:induction false} ForConcat(to: Endpoint, a: seq<Datagram>, b: seq<Datagram>)
    ensures For(to, a + b) == For(to, a) + For(to, b)
    decreases |b|
  {
    if b == [] {
      assert a + b == a;
    } else {
      ForConcat(to, a, b[..|b| - 1]);
      assert (a + b)[..|a + b| - 1] == a + b[..|b| - 1];
    }
  }

  lemma {:induction false} ForAddressed(to: Endpoint, tos: seq<Endpoint>, data: Data)
    ensures For(to, Addressed(tos, data)) == Copies(to, data, multiset(tos)[to])
    decreases |tos|
  {
    if tos != [] {
      var n := |tos| - 1;
      ForAddressed(to, tos[..n], data);
      assert Addressed(tos, data)[..n] == Addressed(tos[..n], data);
      assert tos[..n] + [tos[n]] == tos;
      assert multiset(tos)[to] == multiset(tos[..n])[to] + (if tos[n] == to then 1 else 0);
    }
  }

  lemma {:induction false} ForRequests(to: Endpoint, requests: seq<Request>)
    ensures For(to, AddressedAll(requests)) == Wanted(to, requests)
    decreases |requests|
  {
    if requests != [] {
      var r := requests[|requests| - 1];
      ForRequests(to, requests[..|requests| - 1]);
      ForAddressed(to, r.tos, r.data);
      ForConcat(to, AddressedAll(requests[..|requests| - 1]), Addressed(r.tos, r.data));
    }
  }

  /** Whatever fails and however completions interleave: a destination is sent the data of the requests
      that list it, as often as each lists it, in order and without a gap, and all of it once the
      server has drained without a failure. */
  lemma EachDestinationGetsItsData(acts: seq<Q.Action<Datagram>>, requests: seq<Request>, to: Endpoint)
    requires Q.CanRun(Q.Empty<Datagram>(), acts) && Q.Submissions(acts) == AddressedAll(requests)
    ensures var r := Q.Run(Q.Empty<Datagram>(), acts);
      && For(to, r.wire) <= Wanted(to, requests)
      && (r.posted == [] && r.inFlight == [] && r.failures == 0 ==> For(to, r.wire) == Wanted(to, requests))
  {
    var r := Q.Run(Q.Empty<Datagram>(), acts);
    EachDestinationInOrder(acts, to);
    ForRequests(to, requests);
    Q.Conservation(acts);
    hide Q.Run, Q.CanRun;
    if r.posted == [] && r.inFlight == [] && r.failures == 0 {
      assert r.wire + [] + [] == r.wire;
    }
  }

  class Container {
    var servers: map<Endpoint, Q.Writer<Datagram>>

    ghost predicate Valid()
      reads this
    {
      forall a, b :: a in servers && b in servers && a != b ==> servers[a] != servers[b]
    }

    constructor ()
      ensures Valid() && servers == map[]
    {
      servers := map[];
    }

    /** `local` is the endpoint the socket is bound to when binding succeeds. */
    method Open(bound: bool, local: Endpoint) returns (ec: Error)
      requires Valid()
      modifies this
      ensures Valid()
      ensures ec == (if bound then NoError else BindFailed)
      ensures !bound ==> servers == old(servers)
      ensures bound ==> (
        && servers.Keys == old(servers).Keys + {local}
        && fresh(servers[local])
        && servers[local].State() == Q.Empty()
        && (forall e :: e in old(servers) && e != local ==> servers[e] == old(servers)[e]))
    {
      var server := new Q.Writer<Datagram>();
      if !bound {
        return BindFailed;
      }
      servers := servers[local := server];
      ec := NoError;
    }

    /** The server is forgotten even when closing its socket reports an error. */
    method Close(local: Endpoint, closed: bool) returns (ec: Error)
      requires Valid()
      modifies this
      ensures Valid()
      ensures ec == if local !in old(servers) then NotConnected else if closed then NoError else CloseFailed
      ensures servers == old(servers) - {local}
    {
      if local !in servers {
        return NotConnected;
      }
      ec := if closed then NoError else CloseFailed;
      servers := servers - {local};
    }

    method Write(from: Endpoint, tos: seq<Endpoint>, data: Data) returns (ec: Error)
      requires Valid()
      modifies if from in servers then {servers[from]} else {}
      ensures ec == if from in servers then NoError else NotConnected
      ensures from in servers ==>
        servers[from].State() == Written(old(servers[from].State()), Addressed(tos, data))
    {
      if from !in servers {
        return NotConnected;
      }
      var server := servers[from];
      var i := 0;
      while i < |tos|
        invariant i <= |tos|
        invariant server.State() == Written(old(server.State()), Addressed(tos[..i], data))
      {
        server.Write(Datagram(tos[i], data));
        assert Addressed(tos[..i + 1], data) == Addressed(tos[..i], data) + [Datagram(tos[i], data)];
        i := i + 1;
      }
      assert tos[..|tos|] == tos;
      ec := NoError;
    }
  }
}
