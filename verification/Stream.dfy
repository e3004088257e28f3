/**
 One direction of a TCP connection, end to end: the client's write queue, a pipe that keeps the
 order of bytes, and the server's read loop with its resized and cleared buffer.
 */
module Stream {
  import opened Basics
  import Q = WriteQueue

  type Bytes = seq<byte>

  function Zeros(n: nat): (z: Bytes)
    ensures |z| == n
  {
    seq(n, _ => 0)
  }

  function Flatten(parts: seq<Bytes>): Bytes {
    if parts == [] then [] else parts[0] + Flatten(parts[1..])
  }

  // ---------- The read loop ----------

  /** `at` is where the outstanding read was told to put its bytes. */
  datatype Reader = Reader(buffer: Bytes, at: nat, reading: bool, chunks: seq<Bytes>)

  /** `do_read`: `prepare` grows the buffer and hands out the grown part. */
  function StartRead(r: Reader, size: nat): Reader {
    r.(at := |r.buffer|, buffer := r.buffer + Zeros(size), reading := true)
  }

  function Resize(b: Bytes, n: nat): Bytes {
    if n <= |b| then b[..n] else b + Zeros(n - |b|)
  }

  /** The transport has stored `data` where the read asked for it, and `on_read` runs: resize, hand
      the buffer to the handler, erase it, read again. */
  function CompleteRead(r: Reader, data: Bytes, size: nat): Reader
    requires r.at + |data| <= |r.buffer|
  {
    var filled := r.buffer[..r.at] + data + r.buffer[r.at + |data|..];
    var chunk := Resize(filled, |data|);
    StartRead(r.(buffer := [], chunks := r.chunks + [chunk]), size)
  }

  class ReadLoop {
    const size: nat          // `ReadBufferSize`
    var buffer: Bytes        // `buffer_`
    var at: nat
    var reading: bool
    ghost var chunks: seq<Bytes>

    constructor (size: nat)
      ensures this.size == size && State() == Idle()
    {
      this.size := size;
      buffer, at, reading, chunks := [], 0, false, [];
    }

    ghost function State(): Reader
      reads this
    {
      Reader(buffer, at, reading, chunks)
    }

    method DoRead()
      modifies this
      ensures State() == StartRead(old(State()), size)
    {
      at := |buffer|;
      buffer := buffer + Zeros(size);
      reading := true;
    }

    /** `on_read`; the caller is the transport, which has `data` for the outstanding read. */
    method OnRead(failed: bool, data: Bytes) returns (chunk: Bytes)
      requires !failed ==> at + |data| <= |buffer|
      modifies this
      ensures State() ==
        if failed then old(State()).(reading := false) else CompleteRead(old(State()), data, size)
      ensures !failed ==> chunks == old(chunks) + [chunk]
    {
      if failed {
        reading := false;
        return [];
      }
      buffer := buffer[..at] + data + buffer[at + |data|..];
      buffer := Resize(buffer, |data|);
      chunk := buffer;
      chunks := chunks + [buffer];
      buffer := [];
      DoRead();
    }
  }

  function Idle(): Reader {
    Reader([], 0, false, [])
  }

  /** What every read finds and leaves: the whole buffer is the part handed out. */
  predicate ReaderInv(r: Reader, size: nat) {
    && (r.reading ==> r.at == 0 && |r.buffer| == size)
    && (forall i :: 0 <= i < |r.chunks| ==> |r.chunks[i]| <= size)
  }

  /** A completed read passes on exactly the bytes that arrived, and the next read again starts
      from an empty buffer. */
  lemma ReadPassesExactly(r: Reader, data: Bytes, size: nat)
    requires ReaderInv(r, size) && r.reading && |data| <= size
    ensures CompleteRead(r, data, size).chunks == r.chunks + [data]
    ensures CompleteRead(r, data, size).at == 0
    ensures ReaderInv(CompleteRead(r, data, size), size)
  {
    assert (r.buffer[..0] + data + r.buffer[|data|..])[..|data|] == data;
  }

  // ---------- The connection ----------

  datatype Connection = Connection(
    client: Q.Queue<Bytes>,
    sent: nat,        // bytes of the started write that have entered the pipe
    pipe: Bytes,
    server: Reader)

  /** The session starts reading as soon as it is accepted. */
  function Open(size: nat): Connection {
    Connection(Q.Empty(), 0, [], StartRead(Idle(), size))
  }

  datatype Action =
    | Client(a: Q.Action<Bytes>)
    | Transmit(n: nat)
    | Receive(n: nat)
    | ReadFails

  predicate Enabled(c: Connection, a: Action, size: nat) {
    match a
    case Client(qa) =>
      // a composed write succeeds only when all of it has entered the pipe
      Q.Enabled(c.client, qa) && (qa.Finish? && qa.ok ==> c.sent == |c.client.inFlight[qa.op]|)
    case Transmit(n) => c.client.inFlight != [] && c.sent + n <= |c.client.inFlight[0]|
    case Receive(n) => c.server.reading && n <= size && n <= |c.pipe| && c.server.at + n <= |c.server.buffer|
    case ReadFails => c.server.reading
  }

  function Step(c: Connection, a: Action, size: nat): Connection
    requires Enabled(c, a, size)
  {
    match a
    case Client(qa) =>
      c.(client := Q.Step(c.client, qa), sent := if qa.Finish? && qa.ok then 0 else c.sent)
    case Transmit(n) =>
      c.(pipe := c.pipe + c.client.inFlight[0][c.sent..c.sent + n], sent := c.sent + n)
    case Receive(n) =>
      c.(pipe := c.pipe[n..], server := CompleteRead(c.server, c.pipe[..n], size))
    case ReadFails =>
      c.(server := c.server.(reading := false))
  }

  predicate CanRun(c: Connection, acts: seq<Action>, size: nat)
    decreases |acts|
  {
    acts == [] || (Enabled(c, acts[0], size) && CanRun(Step(c, acts[0], size), acts[1..], size))
  }

  function Run(c: Connection, acts: seq<Action>, size: nat): Connection
    requires CanRun(c, acts, size)
    decreases |acts|
  {
    if acts == [] then c else Run(Step(c, acts[0], size), acts[1..], size)
  }

  // ---------- The invariant ----------

  /** The part of the front message that has entered the pipe. */
  function Partial(c: Connection): Bytes
    requires c.client.queue != [] ==> c.sent <= |c.client.queue[0]|
  {
    if c.client.queue == [] then [] else c.client.queue[0][..c.sent]
  }

  ghost predicate Inv(c: Connection, size: nat) {
    && Q.Inv(c.client)
    && (if c.client.queue == [] then c.sent == 0 else c.sent <= |c.client.queue[0]|)
    && ReaderInv(c.server, size)
    && Flatten(c.server.chunks) + c.pipe == Flatten(c.client.wire) + Partial(c)
  }

  lemma {:induction false} FlattenConcat(a: seq<Bytes>, b: seq<Bytes>)
    ensures Flatten(a + b) == Flatten(a) + Flatten(b)
  {
    if a == [] {
      assert a + b == b;
    } else {
      assert (a + b)[1..] == a[1..] + b;
      FlattenConcat(a[1..], b);
    }
  }

  lemma FlattenSnoc(a: seq<Bytes>, m: Bytes)
    ensures Flatten(a + [m]) == Flatten(a) + m
  {
    FlattenConcat(a, [m]);
    assert Flatten([m]) == m + Flatten([m][1..]);
  }

  lemma ClientKeepsInv(c: Connection, qa: Q.Action<Bytes>, size: nat)
    requires Inv(c, size) && Enabled(c, Client(qa), size)
    ensures Inv(Step(c, Client(qa), size), size)
  {
    hide Flatten, ReaderInv;
    Q.StepKeepsInv(c.client, qa);
    var r := Step(c, Client(qa), size);
    if qa.Finish? && qa.ok {
      FinishedIsOnWire(c, qa, size);
    } else {
      assert r.client.wire == c.client.wire && Partial(r) == Partial(c);
    }
  }

  lemma FinishedIsOnWire(c: Connection, qa: Q.Action<Bytes>, size: nat)
    requires Inv(c, size) && Enabled(c, Client(qa), size) && qa.Finish? && qa.ok
    ensures var r := Step(c, Client(qa), size);
      r.sent == 0 && Flatten(r.client.wire) + Partial(r) == Flatten(c.client.wire) + Partial(c)
  {
    hide Flatten, ReaderInv;
    var r := Step(c, Client(qa), size);
    var m := c.client.queue[0];
    assert r.client.wire == c.client.wire + [m];
    FlattenSnoc(c.client.wire, m);
    assert Partial(r) == [] && Partial(c) == m;
  }

  lemma TransmitKeepsInv(c: Connection, n: nat, size: nat)
    requires Inv(c, size) && Enabled(c, Transmit(n), size)
    ensures Inv(Step(c, Transmit(n), size), size)
  {
    hide Flatten, ReaderInv;
    var front := c.client.queue[0];
    assert c.client.inFlight[0] == front;
    var moved := front[c.sent..c.sent + n];
    assert front[..c.sent + n] == front[..c.sent] + moved;
    BothExtend(Flatten(c.server.chunks), c.pipe, Flatten(c.client.wire), front[..c.sent], moved);
  }

  lemma BothExtend(a: Bytes, b: Bytes, c: Bytes, d: Bytes, more: Bytes)
    requires a + b == c + d
    ensures a + (b + more) == c + (d + more)
  {
    assert a + (b + more) == (a + b) + more;
    assert c + (d + more) == (c + d) + more;
  }

  lemma ReceiveKeepsInv(c: Connection, n: nat, size: nat)
    requires Inv(c, size) && Enabled(c, Receive(n), size)
    ensures Inv(Step(c, Receive(n), size), size)
  {
    var data := c.pipe[..n];
    ReadPassesExactly(c.server, data, size);
    FlattenSnoc(c.server.chunks, data);
    assert (Flatten(c.server.chunks) + data) + c.pipe[n..] == Flatten(c.server.chunks) + c.pipe by {
      assert c.pipe == data + c.pipe[n..];
    }
  }

  lemma StepKeepsInv(c: Connection, a: Action, size: nat)
    requires Inv(c, size) && Enabled(c, a, size)
    ensures Inv(Step(c, a, size), size)
  {
    match a
    case Client(qa) => ClientKeepsInv(c, qa, size);
    case Transmit(n) => TransmitKeepsInv(c, n, size);
    case Receive(n) => ReceiveKeepsInv(c, n, size);
    case ReadFails =>
  }

  lemma {:induction false} RunKeepsInv(c: Connection, acts: seq<Action>, size: nat)
    requires Inv(c, size) && CanRun(c, acts, size)
    ensures Inv(Run(c, acts, size), size)
    decreases |acts|
  {
    hide Inv, Step, Enabled;
    if acts != [] {
      StepKeepsInv(c, acts[0], size);
      RunKeepsInv(Step(c, acts[0], size), acts[1..], size);
    }
  }

  /** The messages submitted by the client in a run of the connection. */
  function Submissions(acts: seq<Action>): seq<Bytes> {
    if acts == [] then [] else
      (if acts[0].Client? && acts[0].a.Submit? then [acts[0].a.msg] else []) + Submissions(acts[1..])
  }

  lemma {:induction false} RunSubmits(c: Connection, acts: seq<Action>, size: nat)
    requires CanRun(c, acts, size)
    ensures Run(c, acts, size).client.submitted == c.client.submitted + Submissions(acts)
    decreases |acts|
  {
    if acts == [] {
      assert c.client.submitted + [] == c.client.submitted;
    } else {
      var c1 := Step(c, acts[0], size);
      var first := if acts[0].Client? && acts[0].a.Submit? then [acts[0].a.msg] else [];
      assert c1.client.submitted == c.client.submitted + first;
      hide Step, Enabled;
      RunSubmits(c1, acts[1..], size);
      var rest := Submissions(acts[1..]);
      assert (c.client.submitted + first) + rest == c.client.submitted + (first + rest);
    }
  }

  /** How many bytes each completed read has brought. */
  function Sizes(acts: seq<Action>): seq<nat> {
    if acts == [] then [] else (if acts[0].Receive? then [acts[0].n] else []) + Sizes(acts[1..])
  }

  function Lengths(chunks: seq<Bytes>): seq<nat> {
    seq(|chunks|, i requires 0 <= i < |chunks| => |chunks[i]|)
  }

  lemma ReadStep(c: Connection, a: Action, size: nat)
    requires Inv(c, size) && Enabled(c, a, size)
    ensures var r := Step(c, a, size).server;
      && Lengths(r.chunks) == Lengths(c.server.chunks) + (if a.Receive? then [a.n] else [])
      && r.reading == (c.server.reading && !a.ReadFails?)
  {
    if a.Receive? {
      ReadPassesExactly(c.server, c.pipe[..a.n], size);
    }
  }

  lemma {:induction false} RunReads(c: Connection, acts: seq<Action>, size: nat)
    requires Inv(c, size) && CanRun(c, acts, size)
    ensures var r := Run(c, acts, size).server;
      && Lengths(r.chunks) == Lengths(c.server.chunks) + Sizes(acts)
      && (r.reading <==> c.server.reading && ReadFails !in acts)
    decreases |acts|
  {
    hide Inv, Step, Enabled, Lengths;
    if acts != [] {
      var first := if acts[0].Receive? then [acts[0].n] else [];
      ReadStep(c, acts[0], size);
      StepKeepsInv(c, acts[0], size);
      RunReads(Step(c, acts[0], size), acts[1..], size);
      var before, rest := Lengths(c.server.chunks), Sizes(acts[1..]);
      assert (before + first) + rest == before + (first + rest);
    }
  }

  // ---------- Theorems ----------

  /** In every run the server reads until a read fails, and its handler is called once for each completed
      read, with as many bytes as that has brought. */
  lemma OneChunkForEachRead(acts: seq<Action>, size: nat)
    requires CanRun(Open(size), acts, size)
    ensures var s := Run(Open(size), acts, size).server;
      Lengths(s.chunks) == Sizes(acts) && (s.reading <==> ReadFails !in acts)
  {
    RunReads(Open(size), acts, size);
  }

  /** The bytes the server's handler has been given are always a prefix of the bytes the client
      submitted, in chunks no larger than the read buffer, whatever fails on either side. */
  lemma EndToEndPrefix(acts: seq<Action>, size: nat)
    requires CanRun(Open(size), acts, size)
    ensures var r := Run(Open(size), acts, size);
      && Flatten(r.server.chunks) <= Flatten(Submissions(acts))
      && (forall i :: 0 <= i < |r.server.chunks| ==> |r.server.chunks[i]| <= size)
  {
    var r := Run(Open(size), acts, size);
    RunKeepsInv(Open(size), acts, size);
    RunSubmits(Open(size), acts, size);
    assert Submissions(acts) == r.client.submitted;
    hide Run, CanRun;
    DeliveredIsPrefix(r, size);
  }

  lemma DeliveredIsPrefix(c: Connection, size: nat)
    requires Inv(c, size)
    ensures Flatten(c.server.chunks) <= Flatten(c.client.submitted)
  {
    var rest := c.client.queue + c.client.posted;
    assert c.client.submitted == c.client.wire + rest;
    FlattenConcat(c.client.wire, rest);
    assert Partial(c) <= Flatten(rest);
    assert Flatten(c.client.wire) + Partial(c) <= Flatten(c.client.wire) + Flatten(rest);
  }

  /** Nothing is lost on a healthy connection: once the client has drained and the pipe is empty,
      the server has exactly what was submitted. */
  lemma EndToEndComplete(acts: seq<Action>, size: nat)
    requires CanRun(Open(size), acts, size)
    requires var r := Run(Open(size), acts, size);
      r.client.posted == [] && r.client.inFlight == [] && r.client.failures == 0 && r.pipe == []
    ensures Flatten(Run(Open(size), acts, size).server.chunks) == Flatten(Submissions(acts))
  {
    var r := Run(Open(size), acts, size);
    RunKeepsInv(Open(size), acts, size);
    RunSubmits(Open(size), acts, size);
    assert Submissions(acts) == r.client.submitted;
    hide Run, CanRun;
    DrainedIsDelivered(r, size);
  }

  lemma DrainedIsDelivered(c: Connection, size: nat)
    requires Inv(c, size)
    requires c.client.posted == [] && c.client.inFlight == [] && c.client.failures == 0 && c.pipe == []
    ensures Flatten(c.server.chunks) == Flatten(c.client.submitted)
  {
    assert c.client.wire + [] + [] == c.client.wire;
    assert Flatten(c.server.chunks) + [] == Flatten(c.server.chunks);
    assert Flatten(c.client.wire) + [] == Flatten(c.client.wire);
  }

  /** At every moment of every run the outstanding read owns the whole buffer. */
  lemma BufferEmptyAtEveryRead(acts: seq<Action>, size: nat)
    requires CanRun(Open(size), acts, size)
    ensures var s := Run(Open(size), acts, size).server;
      s.reading ==> s.at == 0 && |s.buffer| == size
  {
    RunKeepsInv(Open(size), acts, size);
  }
}
