/**
 The serial port writes with `async_write_some` and discards the byte count, so one completion may
 put only part of a message on the line and the message is popped all the same.
 */
module Serial {
  import Q = WriteQueue
  import S = Stream

  type Bytes = S.Bytes

  /** `line` is what has left the port, `counts` the byte counts of the successful completions. */
  datatype Port = Port(q: Q.Queue<Bytes>, line: Bytes, counts: seq<nat>)

  datatype Action =
    | Submit(msg: Bytes)
    | Execute
    | Wrote(op: nat, n: nat)
    | Failed(op: nat)

  function Closed(): Port {
    Port(Q.Empty(), [], [])
  }

  predicate Enabled(p: Port, a: Action) {
    match a
    case Submit(_) => true
    case Execute => p.q.posted != []
    case Wrote(op, n) => op < |p.q.inFlight| && p.q.queue != [] && n <= |p.q.inFlight[op]|
    case Failed(op) => op < |p.q.inFlight|
  }

  function Step(p: Port, a: Action): Port
    requires Enabled(p, a)
  {
    match a
    case Submit(msg) => p.(q := Q.AfterWrite(p.q, msg))
    case Execute => p.(q := Q.AfterWriting(p.q))
    case Wrote(op, n) =>
      Port(Q.AfterOnWrite(p.q, op, true), p.line + p.q.inFlight[op][..n], p.counts + [n])
    case Failed(op) => p.(q := Q.AfterOnWrite(p.q, op, false))
  }

  predicate CanRun(p: Port, acts: seq<Action>)
    decreases |acts|
  {
    acts == [] || (Enabled(p, acts[0]) && CanRun(Step(p, acts[0]), acts[1..]))
  }

  function Run(p: Port, acts: seq<Action>): Port
    requires CanRun(p, acts)
    decreases |acts|
  {
    if acts == [] then p else Run(Step(p, acts[0]), acts[1..])
  }

  /** The first `counts[i]` bytes of each message, one after the other. */
  function Cut(msgs: seq<Bytes>, counts: seq<nat>): Bytes
    requires CountsFit(msgs, counts)
  {
    if msgs == [] then []
    else
      var n := |msgs| - 1;
      Cut(msgs[..n], counts[..n]) + msgs[n][..counts[n]]
  }

  predicate CountsFit(msgs: seq<Bytes>, counts: seq<nat>) {
    |counts| == |msgs| && forall i :: 0 <= i < |msgs| ==> counts[i] <= |msgs[i]|
  }

  ghost predicate Inv(p: Port) {
    && Q.Inv(p.q)
    && CountsFit(p.q.wire, p.counts)
    && p.line == Cut(p.q.wire, p.counts)
  }

  lemma StepKeepsInv(p: Port, a: Action)
    requires Inv(p) && Enabled(p, a)
    ensures Inv(Step(p, a))
  {
    hide Q.Inv;
    match a
    case Submit(msg) => Q.StepKeepsInv(p.q, Q.Submit(msg));
    case Execute => Q.StepKeepsInv(p.q, Q.Execute);
    case Failed(op) => Q.StepKeepsInv(p.q, Q.Finish(op, false));
    case Wrote(op, n) => WroteKeepsInv(p, op, n);
  }

  lemma WroteKeepsInv(p: Port, op: nat, n: nat)
    requires Inv(p) && Enabled(p, Wrote(op, n))
    ensures Inv(Step(p, Wrote(op, n)))
  {
    hide Q.Inv, Cut;
    Q.StepKeepsInv(p.q, Q.Finish(op, true));
    CutSnoc(p.q.wire, p.counts, p.q.inFlight[op], n);
  }

  lemma CutSnoc(msgs: seq<Bytes>, counts: seq<nat>, msg: Bytes, n: nat)
    requires CountsFit(msgs, counts) && n <= |msg|
    ensures CountsFit(msgs + [msg], counts + [n])
    ensures Cut(msgs + [msg], counts + [n]) == Cut(msgs, counts) + msg[..n]
  {
    assert (msgs + [msg])[..|msgs|] == msgs && (counts + [n])[..|msgs|] == counts;
  }

  lemma {:induction false} RunKeepsInv(p: Port, acts: seq<Action>)
    requires Inv(p) && CanRun(p, acts)
    ensures Inv(Run(p, acts))
    decreases |acts|
  {
    hide Inv, Step, Enabled;
    if acts != [] {
      StepKeepsInv(p, acts[0]);
      RunKeepsInv(Step(p, acts[0]), acts[1..]);
    }
  }

  lemma ClosedInv()
    ensures Inv(Closed())
  {
  }

  /** A cut sequence is no longer than the whole, and equally long only when nothing was cut. */
  lemma {:induction false} CutLength(msgs: seq<Bytes>, counts: seq<nat>)
    requires CountsFit(msgs, counts)
    ensures |Cut(msgs, counts)| <= |S.Flatten(msgs)|
    ensures |Cut(msgs, counts)| == |S.Flatten(msgs)| ==> forall i :: 0 <= i < |msgs| ==> counts[i] == |msgs[i]|
  {
    if msgs != [] {
      var n := |msgs| - 1;
      CutLength(msgs[..n], counts[..n]);
      S.FlattenSnoc(msgs[..n], msgs[n]);
      assert msgs[..n] + [msgs[n]] == msgs;
      if |Cut(msgs, counts)| == |S.Flatten(msgs)| {
        forall i | 0 <= i < |msgs| ensures counts[i] == |msgs[i]| {
          if i < n {
            assert counts[..n][i] == |msgs[..n][i]|;
          }
        }
      }
    }
  }

  lemma {:induction false} CutNothing(msgs: seq<Bytes>, counts: seq<nat>)
    requires CountsFit(msgs, counts)
    requires forall i :: 0 <= i < |msgs| ==> counts[i] == |msgs[i]|
    ensures Cut(msgs, counts) == S.Flatten(msgs)
  {
    if msgs != [] {
      var n := |msgs| - 1;
      CutNothing(msgs[..n], counts[..n]);
      S.FlattenSnoc(msgs[..n], msgs[n]);
      assert msgs[..n] + [msgs[n]] == msgs;
    }
  }

  /** In every run the line carries one prefix of each popped message, in order; it carries the
      messages themselves exactly when every completion wrote the whole message. */
  lemma LineIsPrefixOfEachMessage(acts: seq<Action>)
    requires CanRun(Closed(), acts)
    ensures var p := Run(Closed(), acts);
      && p.q.wire <= p.q.submitted
      && CountsFit(p.q.wire, p.counts)
      && p.line == Cut(p.q.wire, p.counts)
      && (p.line == S.Flatten(p.q.wire) <==> forall i :: 0 <= i < |p.counts| ==> p.counts[i] == |p.q.wire[i]|)
  {
    hide Run, CanRun, Cut;
    ClosedInv();
    RunKeepsInv(Closed(), acts);
    var p := Run(Closed(), acts);
    assert p.q.submitted == p.q.wire + (p.q.queue + p.q.posted);
    CutLength(p.q.wire, p.counts);
    if forall i :: 0 <= i < |p.counts| ==> p.counts[i] == |p.q.wire[i]| {
      CutNothing(p.q.wire, p.counts);
    }
  }

  /** What is submitted, and the byte counts that the port reports. */
  function Submissions(acts: seq<Action>): seq<Bytes> {
    if acts == [] then []
    else (if acts[0].Submit? then [acts[0].msg] else []) + Submissions(acts[1..])
  }

  function Counts(acts: seq<Action>): seq<nat> {
    if acts == [] then [] else (if acts[0].Wrote? then [acts[0].n] else []) + Counts(acts[1..])
  }

  lemma {:induction false} RunRecords(p: Port, acts: seq<Action>)
    requires CanRun(p, acts)
    ensures var r := Run(p, acts);
      r.q.submitted == p.q.submitted + Submissions(acts) && r.counts == p.counts + Counts(acts)
    decreases |acts|
  {
    if acts != [] {
      var a, p1 := acts[0], Step(p, acts[0]);
      var msgs := if a.Submit? then [a.msg] else [];
      var counts := if a.Wrote? then [a.n] else [];
      assert p1.q.submitted == p.q.submitted + msgs && p1.counts == p.counts + counts;
      hide Step, Enabled;
      RunRecords(p1, acts[1..]);
      assert (p.q.submitted + msgs) + Submissions(acts[1..]) == p.q.submitted + (msgs + Submissions(acts[1..]));
      assert (p.counts + counts) + Counts(acts[1..]) == p.counts + (counts + Counts(acts[1..]));
    }
  }

  /** In every run the line is told by the submissions and the reported counts alone: the messages in the
      order they were submitted, the first as many as there are counts, each cut to its count. */
  lemma LineIsToldByCounts(acts: seq<Action>)
    requires CanRun(Closed(), acts)
    ensures var msgs, counts := Submissions(acts), Counts(acts);
      |counts| <= |msgs| && CountsFit(msgs[..|counts|], counts)
      && Run(Closed(), acts).line == Cut(msgs[..|counts|], counts)
  {
    hide Run, CanRun, Cut, Submissions, Counts;
    RunRecords(Closed(), acts);
    LineIsPrefixOfEachMessage(acts);
    var p := Run(Closed(), acts);
    assert Closed().q.submitted == [] && Closed().counts == [];
    assert p.q.submitted == Submissions(acts) && p.counts == Counts(acts);
    assert p.q.wire == p.q.submitted[..|p.counts|];
  }

  /** The loss is real: a two-byte message of which one byte is written is popped and gone. */
  lemma ShortWriteLosesBytes() returns (acts: seq<Action>)
    ensures CanRun(Closed(), acts)
    ensures var p := Run(Closed(), acts);
      p.q.wire == p.q.submitted == [[1, 2]] && p.q.queue == [] && p.line == [1]
  {
    var p0 := Closed();
    var p1 := Step(p0, Submit([1, 2]));
    var p2 := Step(p1, Execute);
    var p3 := Step(p2, Wrote(0, 1));
    assert Run(p3, []) == p3;
    assert Run(p2, [Wrote(0, 1)]) == p3;
    assert [Execute, Wrote(0, 1)][1..] == [Wrote(0, 1)];
    assert Run(p1, [Execute, Wrote(0, 1)]) == p3;
    acts := [Submit([1, 2]), Execute, Wrote(0, 1)];
    assert acts[1..] == [Execute, Wrote(0, 1)];
  }
}
