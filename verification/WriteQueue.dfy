/**
 The write queue that every transport of the library repeats: `write` posts a task, the task
 (`writing`) appends to `queue_` and starts a transport write when the queue was empty, and the
 completion handler (`on_write`) erases the front and starts the next write.

 A `Queue` value is one instant of that protocol. `inFlight` holds the buffer of every transport
 write that was started and has not completed; nothing here assumes that there is at most one.
 `wire` records what the transport reported as written, taken from the completing write and not
 from the queue, so that "the wire is what was submitted, in order" is a theorem.
 */
module WriteQueue {

  datatype Queue<T> = Queue(
    submitted: seq<T>,  // every argument of `write`, in call order
    posted: seq<T>,     // tasks posted to the executor and not yet run
    queue: seq<T>,      // `queue_`
    inFlight: seq<T>,   // writes started and not completed
    wire: seq<T>,       // messages whose write completed without error
    failures: nat)      // completions that carried an error

  function Empty<T>(): Queue<T> {
    Queue([], [], [], [], [], 0)
  }

  /** `write`: post `writing` with the data. */
  function AfterWrite<T>(q: Queue<T>, msg: T): Queue<T> {
    q.(submitted := q.submitted + [msg], posted := q.posted + [msg])
  }

  /** `do_write`: hand the front of the queue to the transport. */
  function AfterDoWrite<T>(q: Queue<T>): Queue<T>
    requires q.queue != []
  {
    q.(inFlight := q.inFlight + [q.queue[0]])
  }

  /** `writing`, run for the oldest posted task. */
  function AfterWriting<T>(q: Queue<T>): Queue<T>
    requires q.posted != []
  {
    var pushed := q.(posted := q.posted[1..], queue := q.queue + [q.posted[0]]);
    if |pushed.queue| > 1 then pushed else AfterDoWrite(pushed)
  }

  /** `on_write` for the started write number `op`. Erasing from an empty vector is undefined, so
      success needs a non-empty queue; `CompletionHasFront` shows that it always has one. */
  function AfterOnWrite<T>(q: Queue<T>, op: nat, ok: bool): Queue<T>
    requires op < |q.inFlight| && (ok ==> q.queue != [])
  {
    var done := q.(inFlight := q.inFlight[..op] + q.inFlight[op + 1..]);
    if !ok then
      done.(failures := q.failures + 1)
    else
      var popped := done.(queue := q.queue[1..], wire := q.wire + [q.inFlight[op]]);
      if popped.queue != [] then AfterDoWrite(popped) else popped
  }

  /** The members every session, client and server object has for this protocol. `posted` and
      `inFlight` stand for what the executor and the transport hold on the object's behalf. */
  class Writer<T> {
    var queue: seq<T>
    var posted: seq<T>
    var inFlight: seq<T>
    ghost var submitted: seq<T>
    ghost var wire: seq<T>
    ghost var failures: nat

    constructor ()
      ensures State() == Empty()
    {
      queue, posted, inFlight, submitted, wire, failures := [], [], [], [], [], 0;
    }

    ghost function State(): Queue<T>
      reads this
    {
      Queue(submitted, posted, queue, inFlight, wire, failures)
    }

    method Write(msg: T)
      modifies this
      ensures State() == AfterWrite(old(State()), msg)
    {
      submitted := submitted + [msg];
      posted := posted + [msg];
    }

    method DoWrite()
      requires queue != []
      modifies this
      ensures State() == AfterDoWrite(old(State()))
    {
      inFlight := inFlight + [queue[0]];
    }

    method Writing()
      requires posted != []
      modifies this
      ensures State() == AfterWriting(old(State()))
    {
      queue := queue + [posted[0]];
      posted := posted[1..];
      if |queue| > 1 {
        return;
      }
      DoWrite();
    }

    method OnWrite(op: nat, ok: bool)
      requires op < |inFlight| && (ok ==> queue != [])
      modifies this
      ensures State() == AfterOnWrite(old(State()), op, ok)
    {
      ghost var done := inFlight[op];
      inFlight := inFlight[..op] + inFlight[op + 1..];
      if !ok {
        failures := failures + 1;
        return;
      }
      wire := wire + [done];
      queue := queue[1..];
      if queue != [] {
        DoWrite();
      }
    }
  }

  // ---------- Runs: any interleaving of calls, task executions and completions ----------

  datatype Action<T> = Submit(msg: T) | Execute | Finish(op: nat, ok: bool)

  predicate Enabled<T>(q: Queue<T>, a: Action<T>) {
    match a
    case Submit(_) => true
    case Execute => q.posted != []
    case Finish(op, ok) => op < |q.inFlight| && (ok ==> q.queue != [])
  }

  function Step<T>(q: Queue<T>, a: Action<T>): Queue<T>
    requires Enabled(q, a)
  {
    match a
    case Submit(msg) => AfterWrite(q, msg)
    case Execute => AfterWriting(q)
    case Finish(op, ok) => AfterOnWrite(q, op, ok)
  }

  predicate CanRun<T>(q: Queue<T>, acts: seq<Action<T>>)
    decreases |acts|
  {
    acts == [] || (Enabled(q, acts[0]) && CanRun(Step(q, acts[0]), acts[1..]))
  }

  function Run<T>(q: Queue<T>, acts: seq<Action<T>>): Queue<T>
    requires CanRun(q, acts)
    decreases |acts|
  {
    if acts == [] then q else Run(Step(q, acts[0]), acts[1..])
  }

  /** The messages of the `Submit` actions of a run. */
  function Submissions<T>(acts: seq<Action<T>>): seq<T> {
    if acts == [] then [] else
      (if acts[0].Submit? then [acts[0].msg] else []) + Submissions(acts[1..])
  }

  // ---------- The invariant ----------

  ghost predicate Inv<T>(q: Queue<T>) {
    && q.wire + q.queue + q.posted == q.submitted
    && q.inFlight == (if q.queue != [] && q.failures == 0 then [q.queue[0]] else [])
    && q.failures <= 1
    && (q.failures > 0 ==> q.queue != [])
  }

  lemma StepKeepsInv<T>(q: Queue<T>, a: Action<T>)
    requires Inv(q) && Enabled(q, a)
    ensures Inv(Step(q, a))
  {
    match a
    case Submit(msg) =>
    case Execute =>
      var p := q.posted;
      assert q.wire + (q.queue + [p[0]]) + p[1..] == q.wire + q.queue + p;
    case Finish(op, ok) =>
      if ok {
        assert (q.wire + [q.queue[0]]) + q.queue[1..] + q.posted == q.wire + q.queue + q.posted;
      }
  }

  lemma {:induction false} RunKeepsInv<T>(q: Queue<T>, acts: seq<Action<T>>)
    requires Inv(q) && CanRun(q, acts)
    ensures Inv(Run(q, acts))
    decreases |acts|
  {
    if acts != [] {
      StepKeepsInv(q, acts[0]);
      RunKeepsInv(Step(q, acts[0]), acts[1..]);
    }
  }

  lemma {:induction false} RunSubmits<T>(q: Queue<T>, acts: seq<Action<T>>)
    requires CanRun(q, acts)
    ensures Run(q, acts).submitted == q.submitted + Submissions(acts)
    decreases |acts|
  {
    if acts == [] {
      assert q.submitted + [] == q.submitted;
    } else {
      var q1 := Step(q, acts[0]);
      RunSubmits(q1, acts[1..]);
      var first := if acts[0].Submit? then [acts[0].msg] else [];
      assert q1.submitted == q.submitted + first;
      assert (q.submitted + first) + Submissions(acts[1..]) == q.submitted + (first + Submissions(acts[1..]));
    }
  }

  /** No completion handler ever erases from an empty `queue_`, and what it erases is the message
      whose write completed. */
  lemma CompletionHasFront<T>(acts: seq<Action<T>>, op: nat)
    requires CanRun(Empty<T>(), acts)
    ensures var r := Run(Empty<T>(), acts);
      op < |r.inFlight| ==> r.queue != [] && r.inFlight[op] == r.queue[0]
  {
    RunKeepsInv(Empty<T>(), acts);
  }

  /** Whole-run refinement: what is written, queued and posted is what was submitted, in order; a
      write is in flight exactly while something is queued and no write has failed; never two. */
  lemma Conservation<T>(acts: seq<Action<T>>)
    requires CanRun(Empty<T>(), acts)
    ensures var r := Run(Empty<T>(), acts);
      && r.wire + r.queue + r.posted == Submissions(acts)
      && (r.inFlight != [] <==> r.queue != [] && r.failures == 0)
      && |r.inFlight| <= 1
      && r.failures <= 1
  {
    RunKeepsInv(Empty<T>(), acts);
    RunSubmits(Empty<T>(), acts);
    assert [] + Submissions(acts) == Submissions(acts);
  }

  /** Fail-stop: after the first failed write nothing more is written, whatever else is submitted,
      and the message whose write failed stays at the front of the queue. */
  lemma {:induction false} FailStop<T>(q: Queue<T>, acts: seq<Action<T>>)
    requires Inv(q) && q.failures > 0 && CanRun(q, acts)
    ensures var r := Run(q, acts);
      && r.wire == q.wire
      && r.failures == q.failures
      && r.inFlight == []
      && q.queue <= r.queue
    decreases |acts|
  {
    if acts != [] {
      StepKeepsInv(q, acts[0]);
      FailStop(Step(q, acts[0]), acts[1..]);
    }
  }

  // ---------- Draining ----------

  /** The number of task executions and completions the queue can still perform unaided. */
  function Work<T>(q: Queue<T>): nat {
    2 * |q.posted| + (if q.failures == 0 then |q.queue| else 0)
  }

  lemma WorkDecreases<T>(q: Queue<T>, a: Action<T>)
    requires Inv(q) && Enabled(q, a) && !a.Submit?
    ensures Work(Step(q, a)) < Work(q)
  {
  }

  /** When nothing is left to run, either everything was written or a write failed and everything
      from the failed message on is still queued. */
  lemma QuiescentIsDelivered<T>(acts: seq<Action<T>>)
    requires CanRun(Empty<T>(), acts)
    requires var r := Run(Empty<T>(), acts); !Enabled(r, Execute) && (forall op, ok :: !Enabled(r, Finish(op, ok)))
    ensures var r := Run(Empty<T>(), acts);
      if r.failures == 0 then r.wire == Submissions(acts)
      else r.queue != [] && r.wire + r.queue == Submissions(acts)
  {
    var r := Run(Empty<T>(), acts);
    Conservation(acts);
    RunKeepsInv(Empty<T>(), acts);
    assert !Enabled(r, Finish(0, true));
    assert r.wire + r.queue + [] == r.wire + r.queue;
    assert r.wire + [] == r.wire;
  }

  /** Draining is always possible: from any state without a failed write there is a run of the
      queue alone after which the wire carries everything that was submitted. */
  lemma {:induction false} DrainRun<T>(q: Queue<T>) returns (acts: seq<Action<T>>)
    requires Inv(q) && q.failures == 0
    ensures CanRun(q, acts) && Submissions(acts) == [] && |acts| == Work(q)
    ensures Run(q, acts).wire == q.submitted
    decreases Work(q)
  {
    if Work(q) == 0 {
      acts := [];
      assert q.wire + [] + [] == q.wire;
    } else {
      var a: Action<T> := if q.posted != [] then Execute else Finish(0, true);
      StepKeepsInv(q, a);
      var rest := DrainRun(Step(q, a));
      acts := [a] + rest;
      assert acts[1..] == rest;
    }
  }
}
