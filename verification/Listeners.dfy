/**
 The container of TCP listeners and its routing of requests to the sessions of one listener. A
 listener's sessions are the members of its shared set; `TcpServer` shows that every member is
 referenced, so `exec_to_all` reaches all of them.
 */
module Listeners {

  type Endpoint = string
  type Data = string

  datatype Error = NoError | NotConnected | AddressInUse | WrongProtocol | MakeFailed

  class Session {
    const endpoint: Endpoint   // the remote endpoint
    var posted: seq<Data>      // what `write` has been called with
    var closeRequests: nat     // how often `close` has been called

    constructor (endpoint: Endpoint)
      ensures this.endpoint == endpoint && posted == [] && closeRequests == 0
    {
      this.endpoint, posted, closeRequests := endpoint, [], 0;
    }

    method Write(data: Data)
      modifies this`posted
      ensures posted == old(posted) + [data]
    {
      posted := posted + [data];
    }

    method Close()
      modifies this`closeRequests
      ensures closeRequests == old(closeRequests) + 1
    {
      closeRequests := closeRequests + 1;
    }
  }

  class Listener {
    const ssl: bool
    var share: set<Session>
    var closings: nat          // posted `closing` tasks of the acceptor

    constructor (ssl: bool)
      ensures this.ssl == ssl && share == {} && closings == 0
    {
      this.ssl, share, closings := ssl, {}, 0;
    }

    /** `write` to one remote endpoint. */
    method Write(client: Endpoint, data: Data)
      modifies share`posted
      ensures forall s :: s in share ==>
        s.posted == if s.endpoint == client then old(s.posted) + [data] else old(s.posted)
    {
      var todo := share;
      while todo != {}
        invariant todo <= share
        invariant forall s :: s in share ==>
          s.posted == if s.endpoint == client && s !in todo then old(s.posted) + [data] else old(s.posted)
        decreases todo
      {
        var session :| session in todo;
        if client == session.endpoint {
          session.Write(data);
        }
        todo := todo - {session};
      }
    }

    method CloseClients(eps: seq<Endpoint>)
      modifies share`closeRequests
      ensures forall s :: s in share ==>
        s.closeRequests == old(s.closeRequests) + (if s.endpoint in eps then 1 else 0)
    {
      var todo := share;
      while todo != {}
        invariant todo <= share
        invariant forall s :: s in share ==>
          s.closeRequests == old(s.closeRequests) + (if s.endpoint in eps && s !in todo then 1 else 0)
        decreases todo
      {
        var session :| session in todo;
        var i := 0;
        while i < |eps| && eps[i] != session.endpoint
          invariant i <= |eps| && session.endpoint !in eps[..i]
        {
          i := i + 1;
        }
        if i < |eps| {
          session.Close();
        }
        todo := todo - {session};
      }
    }

    /** `close` with its clients: every session is asked to close, and the acceptor's close is posted. */
    method Close()
      modifies this`closings, share`closeRequests
      ensures closings == old(closings) + 1
      ensures forall s :: s in share ==> s.closeRequests == old(s.closeRequests) + 1
    {
      var todo := share;
      while todo != {}
        invariant todo <= share
        invariant forall s :: s in share ==>
          s.closeRequests == old(s.closeRequests) + (if s in todo then 0 else 1)
        decreases todo
        modifies share`closeRequests
      {
        var session :| session in todo;
        session.Close();
        todo := todo - {session};
      }
      closings := closings + 1;
    }

    /** The remote endpoints of the sessions, each as often as a session has it. */
    method Clients() returns (v: seq<Endpoint>)
      ensures forall e :: multiset(v)[e] == |At(share, e)|
    {
      v := [];
      var todo := share;
      assert share - todo == {} && forall e :: At({}, e) == {};
      while todo != {}
        invariant todo <= share
        invariant forall e :: multiset(v)[e] == |At(share - todo, e)|
        decreases todo
      {
        var session :| session in todo;
        forall e ensures multiset(v + [session.endpoint])[e] == |At(share - (todo - {session}), e)| {
          var done := At(share - todo, e);
          assert At(share - (todo - {session}), e) == if session.endpoint == e then done + {session} else done;
        }
        v := v + [session.endpoint];
        todo := todo - {session};
      }
      assert share - todo == share;
    }
  }

  /** The sessions among `ss` with remote endpoint `e`. */
  ghost function At(ss: set<Session>, e: Endpoint): set<Session> {
    set s | s in ss && s.endpoint == e
  }

  /** `n` copies of the data. */
  function Copies(data: Data, n: nat): seq<Data> {
    seq(n, _ => data)
  }

  class Container {
    var servers: map<Endpoint, Listener>

    /** No session belongs to two listeners. */
    ghost predicate Valid()
      reads this, servers.Values
    {
      forall a, b :: a in servers && b in servers && a != b ==>
        servers[a] != servers[b] && servers[a].share !! servers[b].share
    }

    constructor ()
      ensures Valid() && servers == map[]
    {
      servers := map[];
    }

    predicate IsOpen(ep: Endpoint)
      reads this
    {
      ep in servers
    }

    /** `supported` is whether the build has the session's protocol, `made` whether listening works. */
    method Open(ep: Endpoint, ssl: bool, supported: bool, made: bool) returns (ec: Error)
      requires Valid()
      modifies this
      ensures Valid()
      ensures ec ==
        if ep in old(servers) then AddressInUse
        else if !supported then WrongProtocol
        else if !made then MakeFailed
        else NoError
      ensures ec != NoError ==> servers == old(servers)
      ensures ec == NoError ==> ep in servers && servers == old(servers)[ep := servers[ep]]
      ensures ec == NoError ==> fresh(servers[ep]) && servers[ep].share == {} && servers[ep].ssl == ssl
    {
      if IsOpen(ep) {
        return AddressInUse;
      }
      if !supported {
        return WrongProtocol;
      }
      if !made {
        return MakeFailed;
      }
      var server := new Listener(ssl);
      servers := servers[ep := server];
      ec := NoError;
    }

    /** A successful write gives the data to each session of the listener exactly as many times as
        the session's endpoint is listed, and to no session of another listener. */
    method Write(from: Endpoint, to: seq<Endpoint>, data: Data) returns (ec: Error)
      requires Valid()
      modifies if from in servers then servers[from].share else {}
      ensures ec == if from in servers then NoError else NotConnected
      ensures from in servers ==> forall s :: s in servers[from].share ==>
        s.posted == old(s.posted) + seq(multiset(to)[s.endpoint], _ => data)
        && s.closeRequests == old(s.closeRequests)
      ensures forall other, s :: other in servers && other != from && s in servers[other].share ==>
        s.posted == old(s.posted) && s.closeRequests == old(s.closeRequests)
    {
      if from !in servers {
        return NotConnected;
      }
      var server := servers[from];
      var i := 0;
      while i < |to|
        invariant i <= |to|
        invariant forall s :: s in server.share ==>
          s.posted == old(s.posted) + Copies(data, multiset(to[..i])[s.endpoint])
        modifies server.share`posted
      {
        server.Write(to[i], data);
        assert to[..i + 1] == to[..i] + [to[i]];
        i := i + 1;
      }
      assert to[..|to|] == to;
      ec := NoError;
    }

    /** Each session whose endpoint is listed is asked to close exactly once, however often it is
        listed; all others are left alone. */
    method CloseClients(ep: Endpoint, clients: seq<Endpoint>) returns (ec: Error)
      requires Valid()
      modifies if ep in servers then servers[ep].share else {}
      ensures ec == if ep in servers then NoError else NotConnected
      ensures ep in servers ==> forall s :: s in servers[ep].share ==>
        s.closeRequests == old(s.closeRequests) + (if s.endpoint in clients then 1 else 0) && s.posted == old(s.posted)
      ensures forall other, s :: other in servers && other != ep && s in servers[other].share ==>
        s.posted == old(s.posted) && s.closeRequests == old(s.closeRequests)
    {
      if ep !in servers {
        return NotConnected;
      }
      servers[ep].CloseClients(clients);
      ec := NoError;
    }

    /** Closing a listener closes all its sessions once and forgets the listener. */
    method Close(ep: Endpoint) returns (ec: Error)
      requires Valid()
      modifies this
      modifies if ep in servers then {servers[ep]} else {}
      modifies if ep in servers then servers[ep].share else {}
      ensures Valid()
      ensures ec == if ep in old(servers) then NoError else NotConnected
      ensures servers == old(servers) - {ep}
      ensures ep in old(servers) ==>
        var server := old(servers)[ep];
        && server.closings == old(server.closings) + 1
        && server.share == old(server.share)
        && (forall s :: s in server.share ==> s.closeRequests == old(s.closeRequests) + 1 && s.posted == old(s.posted))
      ensures forall other, s :: other in servers && s in servers[other].share ==>
        s.posted == old(s.posted) && s.closeRequests == old(s.closeRequests)
    {
      if ep !in servers {
        return NotConnected;
      }
      servers[ep].Close();
      servers := servers - {ep};
      ec := NoError;
    }

    method Clients(ep: Endpoint) returns (v: seq<Endpoint>, ec: Error)
      ensures ec == if ep in servers then NoError else NotConnected
      ensures if ep in servers
        then forall e :: multiset(v)[e] == |At(servers[ep].share, e)|
        else v == []
    {
      if ep !in servers {
        return [], NotConnected;
      }
      v := servers[ep].Clients();
      ec := NoError;
    }
  }
}
