/**
 The monitor's executor under any interleaving of threads, timer expiry and cancellation.
 `is_running_` is a compare-and-exchange token; the timer callback inherits it from the thread that
 armed the timer. Each `Action` is one access to shared state by one thread, or the timer firing.
 Sampling the process and asking for members have outcomes chosen by the environment.
 */
module Monitor {

  /** Where a thread is. */
  datatype Pc =
    | Idle
    | Requested(cont: bool, starts: bool)  // in `send_monitor_data`, before `continuos`
    | BeforeInit                        // before the compare-and-exchange of `init`
    | BeforeStop                        // in `cancel`, before `keep_reading_ = false`
    | BeforeTimerCancel
    | FirstSample                       // in `calculate`
    | Uptime
    | Expire
    | Wait
    | SecondSample                      // in `do_wait`
    | CountMembers
    | Report
    | TestKeep
    | Clear                             // about to store `is_running_ = false`

  datatype State = State(
    running: bool,       // `is_running_`
    keep: bool,          // `keep_reading_`
    waits: nat,          // waits pending on the timer
    expired: nat,        // callbacks queued because the timer fired
    aborted: nat,        // callbacks queued with an error because the wait was cancelled
    threads: seq<Pc>,
    reports: nat,        // monitor reports broadcast so far
    leaked: bool)        // a second sample has failed

  datatype Action =
    | Request(t: nat, cont: bool, starts: bool)
    | StoreCont(t: nat)
    | CompareExchange(t: nat)
    | StoreStop(t: nat)
    | CancelTimer(t: nat)
    | SampleFirst(t: nat, ok: bool)
    | ReadUptime(t: nat, ok: bool)
    | ExpiresAfter(t: nat)
    | AsyncWait(t: nat)
    | TimerFires
    | RunExpired(t: nat)
    | RunAborted(t: nat)
    | SampleSecond(t: nat, ok: bool)
    | AskMembers(t: nat, any: bool)
    | Broadcast(t: nat)
    | LoadKeep(t: nat)
    | ClearFlag(t: nat)

  function Start(threads: nat): State {
    State(false, false, 0, 0, 0, seq(threads, _ => Idle), 0, false)
  }

  predicate Enabled(e: State, a: Action) {
    && (a.TimerFires? || a.t < |e.threads|)
    && match a
       case Request(t, _, _) => e.threads[t].Idle?
       case StoreCont(t) => e.threads[t].Requested?
       case CompareExchange(t) => e.threads[t].BeforeInit?
       case StoreStop(t) => e.threads[t].BeforeStop?
       case CancelTimer(t) => e.threads[t].BeforeTimerCancel?
       case SampleFirst(t, _) => e.threads[t].FirstSample?
       case ReadUptime(t, _) => e.threads[t].Uptime?
       case ExpiresAfter(t) => e.threads[t].Expire?
       case AsyncWait(t) => e.threads[t].Wait?
       case TimerFires => e.waits > 0
       case RunExpired(t) => e.expired > 0 && e.threads[t].Idle?
       case RunAborted(t) => e.aborted > 0 && e.threads[t].Idle?
       case SampleSecond(t, _) => e.threads[t].SecondSample?
       case AskMembers(t, _) => e.threads[t].CountMembers?
       case Broadcast(t) => e.threads[t].Report?
       case LoadKeep(t) => e.threads[t].TestKeep?
       case ClearFlag(t) => e.threads[t].Clear?
  }

  function Goto(e: State, t: nat, pc: Pc): State
    requires t < |e.threads|
  {
    e.(threads := e.threads[t := pc])
  }

  function Step(e: State, a: Action): (r: State)
    requires Enabled(e, a)
    ensures |r.threads| == |e.threads|
  {
    match a
    case Request(t, cont, starts) => Goto(e, t, Requested(cont, starts))
    case StoreCont(t) =>
      Goto(e, t, if e.threads[t].starts then BeforeInit else BeforeStop).(keep := e.threads[t].cont)
    case CompareExchange(t) =>
      if e.running then Goto(e, t, Idle) else Goto(e, t, FirstSample).(running := true)
    case StoreStop(t) => Goto(e, t, BeforeTimerCancel).(keep := false)
    case CancelTimer(t) => Goto(e, t, Idle).(waits := 0, aborted := e.aborted + e.waits)
    case SampleFirst(t, ok) => Goto(e, t, if ok then Uptime else Clear)
    case ReadUptime(t, ok) => Goto(e, t, if ok then Expire else Clear)
    case ExpiresAfter(t) => Goto(e, t, Wait).(waits := 0, aborted := e.aborted + e.waits)
    case AsyncWait(t) => Goto(e, t, Idle).(waits := e.waits + 1)
    case TimerFires => e.(waits := e.waits - 1, expired := e.expired + 1)
    case RunExpired(t) => Goto(e, t, SecondSample).(expired := e.expired - 1)
    case RunAborted(t) => Goto(e, t, Clear).(aborted := e.aborted - 1)
    case SampleSecond(t, ok) =>  // a failed second sample returns without clearing the flag
      if ok then Goto(e, t, CountMembers) else Goto(e, t, Idle).(leaked := true)
    case AskMembers(t, any) => Goto(e, t, if any then Report else Clear)
    case Broadcast(t) => Goto(e, t, TestKeep).(reports := e.reports + 1)
    case LoadKeep(t) => Goto(e, t, if e.keep then FirstSample else Clear)
    case ClearFlag(t) => Goto(e, t, Idle).(running := false)
  }

  predicate CanRun(e: State, acts: seq<Action>)
    decreases |acts|
  {
    acts == [] || (Enabled(e, acts[0]) && CanRun(Step(e, acts[0]), acts[1..]))
  }

  function Run(e: State, acts: seq<Action>): (r: State)
    requires CanRun(e, acts)
    ensures |r.threads| == |e.threads|
    decreases |acts|
  {
    if acts == [] then e else Run(Step(e, acts[0]), acts[1..])
  }

  // ---------- Counting activations ----------

  /** A thread between winning the token and giving it up or handing it to the timer. */
  predicate Active(pc: Pc) {
    pc.FirstSample? || pc.Uptime? || pc.Expire? || pc.Wait? || pc.SecondSample? || pc.CountMembers?
    || pc.Report? || pc.TestKeep? || pc.Clear?
  }

  function CountIf(p: Pc -> bool, ts: seq<Pc>): nat {
    if ts == [] then 0 else (if p(ts[0]) then 1 else 0) + CountIf(p, ts[1..])
  }

  lemma {:induction false} CountIfUpdate(p: Pc -> bool, ts: seq<Pc>, t: nat, pc: Pc)
    requires t < |ts|
    ensures CountIf(p, ts[t := pc]) + (if p(ts[t]) then 1 else 0) == CountIf(p, ts) + (if p(pc) then 1 else 0)
  {
    if t == 0 {
      assert ts[0 := pc][1..] == ts[1..];
    } else {
      assert ts[t := pc][1..] == ts[1..][t - 1 := pc];
      CountIfUpdate(p, ts[1..], t - 1, pc);
    }
  }

  lemma {:induction false} CountIfPair(p: Pc -> bool, ts: seq<Pc>, t: nat, u: nat)
    requires t < u < |ts| && p(ts[t]) && p(ts[u])
    ensures CountIf(p, ts) >= 2
  {
    if t == 0 {
      CountIfOne(p, ts[1..], u - 1);
    } else {
      CountIfPair(p, ts[1..], t - 1, u - 1);
    }
  }

  lemma {:induction false} CountIfOne(p: Pc -> bool, ts: seq<Pc>, t: nat)
    requires t < |ts| && p(ts[t])
    ensures CountIf(p, ts) >= 1
  {
    if t > 0 {
      CountIfOne(p, ts[1..], t - 1);
    }
  }

  lemma {:induction false} CountIfNone(p: Pc -> bool, ts: seq<Pc>)
    requires forall t :: 0 <= t < |ts| ==> !p(ts[t])
    ensures CountIf(p, ts) == 0
  {
    if ts != [] {
      CountIfNone(p, ts[1..]);
    }
  }

  lemma {:induction false} CountIfFind(p: Pc -> bool, ts: seq<Pc>) returns (t: nat)
    requires CountIf(p, ts) > 0
    ensures t < |ts| && p(ts[t])
  {
    if p(ts[0]) {
      t := 0;
    } else {
      t := CountIfFind(p, ts[1..]);
      t := t + 1;
    }
  }

  /** Activations: active threads, pending waits and queued callbacks. */
  function Activations(e: State): nat {
    e.waits + e.expired + e.aborted + CountIf(Active, e.threads)
  }

  // ---------- Mutual exclusion ----------

  ghost predicate Inv(e: State) {
    && Activations(e) <= 1
    && (e.running <==> Activations(e) == 1 || e.leaked)
    && !(Activations(e) == 1 && e.leaked)
  }

  lemma StepKeepsInv(e: State, a: Action)
    requires Inv(e) && Enabled(e, a)
    ensures Inv(Step(e, a))
  {
    hide CountIf;
    if !a.TimerFires? {
      CountIfUpdate(Active, e.threads, a.t, Step(e, a).threads[a.t]);
      if Active(e.threads[a.t]) {
        CountIfOne(Active, e.threads, a.t);
      }
    }
  }

  lemma {:induction false} RunKeepsInv(e: State, acts: seq<Action>)
    requires Inv(e) && CanRun(e, acts)
    ensures Inv(Run(e, acts))
    decreases |acts|
  {
    hide Inv, Step, Enabled;
    if acts != [] {
      StepKeepsInv(e, acts[0]);
      RunKeepsInv(Step(e, acts[0]), acts[1..]);
    }
  }

  lemma Reachable(n: nat, acts: seq<Action>)
    requires CanRun(Start(n), acts)
    ensures Inv(Run(Start(n), acts))
  {
    CountIfNone(Active, Start(n).threads);
    RunKeepsInv(Start(n), acts);
  }

  /** At most one activation exists, in any interleaving: two threads are never both between taking
      and returning the token, and none is while a wait or a callback is pending. */
  lemma MutualExclusion(n: nat, acts: seq<Action>, t: nat, u: nat)
    requires CanRun(Start(n), acts)
    requires t < u < n
    ensures var e := Run(Start(n), acts);
      && !(Active(e.threads[t]) && Active(e.threads[u]))
      && (Active(e.threads[t]) ==> e.waits + e.expired + e.aborted == 0 && e.running)
      && e.waits + e.expired + e.aborted <= 1
      && (e.waits + e.expired + e.aborted == 1 ==> e.running)
  {
    Reachable(n, acts);
    var e := Run(Start(n), acts);
    if Active(e.threads[t]) {
      CountIfOne(Active, e.threads, t);
      if Active(e.threads[u]) {
        CountIfPair(Active, e.threads, t, u);
      }
    }
  }

  /** The flag is set exactly while there is an activation, or for good once a second sample has
      failed; the two never coincide. */
  lemma FlagMeansActivation(n: nat, acts: seq<Action>)
    requires CanRun(Start(n), acts)
    ensures var e := Run(Start(n), acts);
      && (e.running <==> Activations(e) == 1 || e.leaked)
      && !(Activations(e) == 1 && e.leaked)
  {
    Reachable(n, acts);
  }

  /** After a failed second sample the executor is dead: whatever is requested, it is never active
      again and reports nothing more. */
  lemma {:induction false} LeakIsForever(e: State, acts: seq<Action>)
    requires Inv(e) && e.leaked && CanRun(e, acts)
    ensures var r := Run(e, acts); r.leaked && r.running && Activations(r) == 0 && r.reports == e.reports
    decreases |acts|
  {
    if acts != [] {
      StepKeepsInv(e, acts[0]);
      if !acts[0].TimerFires? && Active(e.threads[acts[0].t]) {
        CountIfOne(Active, e.threads, acts[0].t);
      }
      LeakIsForever(Step(e, acts[0]), acts[1..]);
    }
  }

  // ---------- Concrete runs ----------

  /** One step, stated thread by thread. */
  ghost predicate Leads(e: State, a: Action, next: State) {
    && Enabled(e, a)
    && Step(e, a).(threads := next.threads) == next
    && |e.threads| == |next.threads|
    && forall t :: 0 <= t < |next.threads| ==> Step(e, a).threads[t] == next.threads[t]
  }

  lemma Nothing(e: State) returns (acts: seq<Action>)
    ensures acts == [] && CanRun(e, acts) && Run(e, acts) == e
  {
    acts := [];
  }

  lemma Prepend(e: State, a: Action, next: State, rest: seq<Action>) returns (acts: seq<Action>)
    requires Leads(e, a, next) && CanRun(next, rest)
    ensures acts == [a] + rest && CanRun(e, acts) && Run(e, acts) == Run(next, rest)
  {
    assert Step(e, a).threads == next.threads;
    acts := [a] + rest;
    assert acts[1..] == rest;
  }

  /** From a state in which the token is free, a request by an idle thread 0 arms the timer. */
  lemma RequestArms(e: State) returns (acts: seq<Action>)
    requires |e.threads| > 0 && e.threads[0] == Idle && !e.running && e.waits == 0
    ensures CanRun(e, acts) && Run(e, acts) == e.(running := true, keep := true, waits := 1)
    ensures acts != [] && acts[0] == Request(0, true, true) && forall i :: 0 < i < |acts| ==> !acts[i].Request?
  {
    var ts := e.threads;
    var e1 := e.(threads := ts[0 := Requested(true, true)]);
    var e2 := e.(threads := ts[0 := BeforeInit], keep := true);
    var e3 := e2.(threads := ts[0 := FirstSample], running := true);
    assert Leads(e, Request(0, true, true), e1);
    assert Leads(e1, StoreCont(0), e2);
    assert Leads(e2, CompareExchange(0), e3);
    acts := SampleArms(e3, ts);
    hide CanRun, Run, Leads;
    acts := Prepend(e2, CompareExchange(0), e3, acts);
    acts := Prepend(e1, StoreCont(0), e2, acts);
    acts := Prepend(e, Request(0, true, true), e1, acts);
  }

  lemma SampleArms(e: State, ts: seq<Pc>) returns (acts: seq<Action>)
    requires |ts| > 0 && ts[0] == Idle && e.threads == ts[0 := FirstSample] && e.waits == 0
    ensures CanRun(e, acts) && Run(e, acts) == e.(threads := ts, waits := 1)
    ensures forall i :: 0 <= i < |acts| ==> !acts[i].Request?
  {
    var e1 := e.(threads := ts[0 := Uptime]);
    var e2 := e.(threads := ts[0 := Expire]);
    var e3 := e.(threads := ts[0 := Wait]);
    var e4 := e.(threads := ts, waits := 1);
    assert Leads(e, SampleFirst(0, true), e1);
    assert Leads(e1, ReadUptime(0, true), e2);
    assert Leads(e2, ExpiresAfter(0), e3);
    assert Leads(e3, AsyncWait(0), e4);
    hide CanRun, Run, Leads;
    acts := Nothing(e4);
    acts := Prepend(e3, AsyncWait(0), e4, acts);
    acts := Prepend(e2, ExpiresAfter(0), e3, acts);
    acts := Prepend(e1, ReadUptime(0, true), e2, acts);
    acts := Prepend(e, SampleFirst(0, true), e1, acts);
  }

  lemma {:induction false} RunConcat(e: State, a: seq<Action>, b: seq<Action>)
    requires CanRun(e, a) && CanRun(Run(e, a), b)
    ensures CanRun(e, a + b) && Run(e, a + b) == Run(Run(e, a), b)
    decreases |a|
  {
    if a == [] {
      assert a + b == b;
    } else {
      RunConcat(Step(e, a[0]), a[1..], b);
      assert (a + b)[1..] == a[1..] + b;
    }
  }

  /** The state after a failed second sample on one thread. */
  function Dead(keep: bool): State {
    State(true, keep, 0, 0, 0, [Idle], 0, true)
  }

  /** It does happen, on one thread and after a single request: the second sample fails, and from then
      on a request finds the token taken and does nothing. */
  lemma LeakHappens() returns (acts: seq<Action>, again: seq<Action>)
    ensures CanRun(Start(1), acts) && Run(Start(1), acts) == Dead(true)
    ensures again == [Request(0, true, true), StoreCont(0), CompareExchange(0)]
    ensures CanRun(Dead(true), again) && Run(Dead(true), again) == Dead(true)
  {
    var armed := Start(1).(running := true, keep := true, waits := 1);
    acts := RequestArms(Start(1));
    var rest := SecondSampleFails(armed);
    assert armed.threads == [Idle];
    hide CanRun, Run;
    RunConcat(Start(1), acts, rest);
    acts := acts + rest;
    again := DeadRefuses();
  }

  lemma SecondSampleFails(e: State) returns (acts: seq<Action>)
    requires |e.threads| > 0 && e.threads[0] == Idle && e.waits == 1 && e.expired == 0
    ensures CanRun(e, acts) && Run(e, acts) == e.(waits := 0, leaked := true)
  {
    var ts := e.threads;
    var e1 := e.(waits := 0, expired := 1);
    var e2 := e.(waits := 0, threads := ts[0 := SecondSample]);
    var e3 := e.(waits := 0, leaked := true);
    assert Leads(e, TimerFires, e1);
    assert Leads(e1, RunExpired(0), e2);
    assert Leads(e2, SampleSecond(0, false), e3);
    hide CanRun, Run, Leads;
    acts := Nothing(e3);
    acts := Prepend(e2, SampleSecond(0, false), e3, acts);
    acts := Prepend(e1, RunExpired(0), e2, acts);
    acts := Prepend(e, TimerFires, e1, acts);
  }

  lemma DeadRefuses() returns (acts: seq<Action>)
    ensures acts == [Request(0, true, true), StoreCont(0), CompareExchange(0)]
    ensures CanRun(Dead(true), acts) && Run(Dead(true), acts) == Dead(true)
  {
    var d1 := Dead(true).(threads := [Requested(true, true)]);
    var d2 := Dead(true).(threads := [BeforeInit]);
    assert Leads(Dead(true), Request(0, true, true), d1);
    assert Leads(d1, StoreCont(0), d2);
    assert Leads(d2, CompareExchange(0), Dead(true));
    hide CanRun, Run, Leads;
    acts := Nothing(Dead(true));
    acts := Prepend(d2, CompareExchange(0), Dead(true), acts);
    acts := Prepend(d1, StoreCont(0), d2, acts);
    acts := Prepend(Dead(true), Request(0, true, true), d1, acts);
  }

  // ---------- After cancel ----------

  /** A thread whose activation has a report still ahead of it when `keep_reading_` is false. */
  predicate Reporting(pc: Pc) {
    pc.FirstSample? || pc.Uptime? || pc.Expire? || pc.Wait? || pc.SecondSample? || pc.CountMembers? || pc.Report?
  }

  /** A request that has stored `keep_reading_` already but not tried to start. */
  predicate Starting(pc: Pc) {
    pc.BeforeInit?
  }

  /** The reports that can still come when nobody stores `keep_reading_` again: one from the current
      activation and one from each request already past that store. */
  function MaxReports(e: State): nat {
    if e.leaked then 0
    else e.waits + e.expired + CountIf(Reporting, e.threads) + CountIf(Starting, e.threads)
  }

  lemma StepKeepsMaxReports(e: State, a: Action)
    requires Inv(e) && Enabled(e, a) && !e.keep && !a.StoreCont?
    ensures var r := Step(e, a); !r.keep && r.reports + MaxReports(r) <= e.reports + MaxReports(e)
  {
    hide CountIf;
    if !a.TimerFires? {
      var pc := Step(e, a).threads[a.t];
      CountIfUpdate(Reporting, e.threads, a.t, pc);
      CountIfUpdate(Starting, e.threads, a.t, pc);
      if Active(e.threads[a.t]) {
        CountIfOne(Active, e.threads, a.t);
      }
    }
  }

  /** While `keep_reading_` stays false, `MaxReports` bounds every run. */
  lemma {:induction false} ReportsBounded(e: State, acts: seq<Action>)
    requires Inv(e) && !e.keep && CanRun(e, acts)
    requires forall i :: 0 <= i < |acts| ==> !acts[i].StoreCont?
    ensures Run(e, acts).reports <= e.reports + MaxReports(e)
    decreases |acts|
  {
    if acts != [] {
      StepKeepsMaxReports(e, acts[0]);
      StepKeepsInv(e, acts[0]);
      hide Inv, Step, Enabled, MaxReports;
      ReportsBounded(Step(e, acts[0]), acts[1..]);
    }
  }

  // ---------- The bound is attained ----------

  /** Thread `h` can carry the current activation to its end: it is the active one, or no thread is
      active and it is free to run the callback. */
  ghost predicate Host(e: State, h: nat) {
    && h < |e.threads|
    && (Active(e.threads[h])
        || (CountIf(Active, e.threads) == 0
            && (e.threads[h].Idle? || e.threads[h].BeforeStop? || e.threads[h].BeforeTimerCancel?)))
  }

  /** The next action that brings the activation hosted by `h` closer to its report and its end. */
  function Drive(e: State, h: nat): Action
    requires h < |e.threads|
  {
    match e.threads[h]
    case FirstSample => SampleFirst(h, true)
    case Uptime => ReadUptime(h, true)
    case Expire => ExpiresAfter(h)
    case Wait => AsyncWait(h)
    case SecondSample => SampleSecond(h, true)
    case CountMembers => AskMembers(h, true)
    case Report => Broadcast(h)
    case TestKeep => LoadKeep(h)
    case Clear => ClearFlag(h)
    case BeforeStop => if e.waits > 0 then TimerFires else StoreStop(h)
    case BeforeTimerCancel => if e.waits > 0 then TimerFires else CancelTimer(h)
    case _ => if e.waits > 0 then TimerFires else if e.expired > 0 then RunExpired(h) else RunAborted(h)
  }

  /** How far the activation hosted by `h` is from its end. */
  function Distance(e: State, h: nat): nat
    requires h < |e.threads|
  {
    (match e.threads[h]
     case FirstSample => 14
     case Uptime => 13
     case Expire => 12
     case Wait => 11
     case SecondSample => 6
     case CountMembers => 5
     case Report => 4
     case TestKeep => 3
     case Clear => 2
     case BeforeStop => 2
     case BeforeTimerCancel => 1
     case _ => 0)
    + 8 * e.waits + 7 * e.expired + 3 * e.aborted
  }

  function Ahead(e: State): nat {
    e.waits + e.expired + CountIf(Reporting, e.threads)
  }

  lemma DriveStep(e: State, h: nat)
    requires Inv(e) && !e.keep && !e.leaked && Host(e, h) && Activations(e) == 1
    ensures var a := Drive(e, h);
      && Enabled(e, a)
      && !a.StoreCont?
      && var r := Step(e, a);
      && Inv(r) && !r.keep && !r.leaked && Host(r, h)
      && r.reports + Ahead(r) == e.reports + Ahead(e)
      && CountIf(Starting, r.threads) == CountIf(Starting, e.threads)
      && Distance(r, h) < Distance(e, h)
  {
    hide CountIf;
    var a := Drive(e, h);
    if Active(e.threads[h]) {
      CountIfOne(Active, e.threads, h);
    }
    StepKeepsInv(e, a);
    if !a.TimerFires? {
      var pc := Step(e, a).threads[h];
      CountIfUpdate(Active, e.threads, h, pc);
      CountIfUpdate(Reporting, e.threads, h, pc);
      CountIfUpdate(Starting, e.threads, h, pc);
    }
  }

  lemma {:induction false} DriveToEnd(e: State, h: nat) returns (acts: seq<Action>)
    requires Inv(e) && !e.keep && !e.leaked && Host(e, h)
    ensures CanRun(e, acts) && (forall i :: 0 <= i < |acts| ==> !acts[i].StoreCont?)
    ensures var r := Run(e, acts);
      && Inv(r) && !r.keep && !r.leaked && Activations(r) == 0
      && r.reports == e.reports + Ahead(e)
      && CountIf(Starting, r.threads) == CountIf(Starting, e.threads)
    decreases if h < |e.threads| then Distance(e, h) else 0
  {
    if Activations(e) == 0 {
      ReportingIsActive(e.threads);
      acts := [];
    } else {
      var a := Drive(e, h);
      DriveStep(e, h);
      var rest := DriveToEnd(Step(e, a), h);
      acts := [a] + rest;
      assert acts[1..] == rest;
    }
  }

  lemma {:induction false} ReportingIsActive(ts: seq<Pc>)
    ensures CountIf(Reporting, ts) <= CountIf(Active, ts)
  {
    if ts != [] {
      ReportingIsActive(ts[1..]);
    }
  }

  lemma {:induction false} AttainMaxReports(e: State, h: nat) returns (acts: seq<Action>)
    requires Inv(e) && !e.keep && !e.leaked && Host(e, h)
    ensures CanRun(e, acts) && (forall i :: 0 <= i < |acts| ==> !acts[i].StoreCont?)
    ensures Run(e, acts).reports == e.reports + MaxReports(e)
    decreases CountIf(Starting, e.threads)
  {
    acts := DriveToEnd(e, h);
    var r := Run(e, acts);
    ReportingIsActive(r.threads);
    hide CountIf;
    if CountIf(Starting, r.threads) > 0 {
      var t := CountIfFind(Starting, r.threads);
      var a := CompareExchange(t);
      var r1 := Step(r, a);
      StepKeepsInv(r, a);
      CountIfUpdate(Starting, r.threads, t, FirstSample);
      CountIfUpdate(Reporting, r.threads, t, FirstSample);
      var rest := AttainMaxReports(r1, t);
      assert ([a] + rest)[1..] == rest;
      assert CanRun(r, [a] + rest) && Run(r, [a] + rest) == Run(r1, rest);
      RunConcat(e, acts, [a] + rest);
      acts := acts + ([a] + rest);
    }
  }

  /** No run from `e` in which nobody stores `keep_reading_` makes more than one more report. */
  ghost predicate AtMostOneMore(e: State) {
    forall acts: seq<Action> | CanRun(e, acts) && (forall i :: 0 <= i < |acts| ==> !acts[i].StoreCont?) ::
      Run(e, acts).reports <= e.reports + 1
  }

  /** `cancel` has just stored false. At most one more report follows in every interleaving if and
      only if the activation and the requests about to start amount to at most one. */
  lemma AfterCancel(n: nat, past: seq<Action>, t: nat)
    requires CanRun(Start(n), past) && Enabled(Run(Start(n), past), StoreStop(t))
    ensures var e := Step(Run(Start(n), past), StoreStop(t));
      AtMostOneMore(e) <==> MaxReports(e) <= 1
  {
    Reachable(n, past);
    var before := Run(Start(n), past);
    StepKeepsInv(before, StoreStop(t));
    var e := Step(before, StoreStop(t));
    hide CanRun, Run, Step;
    if MaxReports(e) <= 1 {
      forall acts: seq<Action> | CanRun(e, acts) && (forall i :: 0 <= i < |acts| ==> !acts[i].StoreCont?)
        ensures Run(e, acts).reports <= e.reports + 1
      {
        ReportsBounded(e, acts);
      }
    } else {
      var h := t;
      if CountIf(Active, e.threads) > 0 {
        h := CountIfFind(Active, e.threads);
      }
      var acts := AttainMaxReports(e, h);
      assert Run(e, acts).reports > e.reports + 1;
    }
  }

  /** On the default single thread the bound always holds: handlers do not interleave, so no request
      is about to start while another one cancels. */
  lemma AfterCancelSingleThread(past: seq<Action>)
    requires CanRun(Start(1), past) && Enabled(Run(Start(1), past), StoreStop(0))
    ensures AtMostOneMore(Step(Run(Start(1), past), StoreStop(0)))
  {
    Reachable(1, past);
    var before := Run(Start(1), past);
    var e := Step(before, StoreStop(0));
    StepKeepsInv(before, StoreStop(0));
    CountIfNone(Starting, e.threads);
    ReportingIsActive(e.threads);
    hide CanRun, Run, Step;
    AfterCancel(1, past, 0);
  }

  ghost predicate NoMore(e: State) {
    forall acts: seq<Action> | CanRun(e, acts) && (forall i :: 0 <= i < |acts| ==> !acts[i].StoreCont?) ::
      Run(e, acts).reports == e.reports
  }

  lemma {:induction false} ReportsGrow(e: State, acts: seq<Action>)
    requires CanRun(e, acts)
    ensures e.reports <= Run(e, acts).reports
    decreases |acts|
  {
    if acts != [] {
      assert e.reports <= Step(e, acts[0]).reports;
      hide Step, Enabled;
      ReportsGrow(Step(e, acts[0]), acts[1..]);
    }
  }

  /** On a single thread a whole cancel, the timer's included, silences the monitor at once if and only if
      the timer had not fired yet; then the token is held by nothing but the callback of the cancelled
      wait. */
  lemma CancelSilencesIff(past: seq<Action>)
    requires CanRun(Start(1), past) && Enabled(Run(Start(1), past), StoreStop(0))
    ensures var before := Run(Start(1), past);
      var e := Step(Step(before, StoreStop(0)), CancelTimer(0));
      && (NoMore(e) <==> before.expired == 0)
      && (before.expired == 0 && !e.leaked ==> (e.running <==> before.waits + before.aborted == 1))
      && e.waits == 0 && e.aborted == before.waits + before.aborted
  {
    hide CanRun, Run, CountIf;
    Reachable(1, past);
    var before := Run(Start(1), past);
    var e1 := Step(before, StoreStop(0));
    var e := Step(e1, CancelTimer(0));
    StepKeepsInv(before, StoreStop(0));
    StepKeepsInv(e1, CancelTimer(0));
    CountIfNone(Starting, e.threads);
    CountIfNone(Active, e.threads);
    ReportingIsActive(e.threads);
    assert !e.keep && MaxReports(e) == (if e.leaked then 0 else e.expired);
    NoMoreIff(e);
  }

  lemma NoMoreIff(e: State)
    requires Inv(e) && !e.keep && e.threads == [Idle] && MaxReports(e) == if e.leaked then 0 else e.expired
    ensures NoMore(e) <==> e.expired == 0
  {
    hide CanRun, Run, CountIf, MaxReports;
    if e.expired == 0 {
      forall acts: seq<Action> | CanRun(e, acts) && (forall i :: 0 <= i < |acts| ==> !acts[i].StoreCont?)
        ensures Run(e, acts).reports == e.reports
      {
        ReportsGrow(e, acts);
        ReportsBounded(e, acts);
      }
    } else {
      CountIfNone(Active, e.threads);
      var acts := AttainMaxReports(e, 0);
      assert Run(e, acts).reports > e.reports;
    }
  }

  // ---------- Going on ----------

  /** The executor waits on thread 0, and is to go on. */
  function WaitingFor(reports: nat): State {
    State(true, true, 1, 0, 0, [Idle], reports, false)
  }

  /** One period: the timer fires, everything is sampled, a report is sent and the next wait begins. */
  lemma OnePeriod(reports: nat) returns (acts: seq<Action>)
    ensures CanRun(WaitingFor(reports), acts) && Run(WaitingFor(reports), acts) == WaitingFor(reports + 1)
    ensures forall i :: 0 <= i < |acts| ==> !acts[i].Request?
  {
    var e := WaitingFor(reports).(waits := 0);
    var e1 := e.(expired := 1);
    var e2 := e.(threads := [SecondSample]);
    var e3 := e.(threads := [CountMembers]);
    assert Leads(WaitingFor(reports), TimerFires, e1) && Leads(e1, RunExpired(0), e2);
    assert Leads(e2, SampleSecond(0, true), e3);
    hide CanRun, Run, Leads;
    acts := ReportAndRearm(reports);
    acts := Prepend(e2, SampleSecond(0, true), e3, acts);
    acts := Prepend(e1, RunExpired(0), e2, acts);
    acts := Prepend(WaitingFor(reports), TimerFires, e1, acts);
  }

  lemma ReportAndRearm(reports: nat) returns (acts: seq<Action>)
    ensures var e := WaitingFor(reports).(waits := 0, threads := [CountMembers]);
      CanRun(e, acts) && Run(e, acts) == WaitingFor(reports + 1)
    ensures forall i :: 0 <= i < |acts| ==> !acts[i].Request?
  {
    var e := WaitingFor(reports).(waits := 0, threads := [CountMembers]);
    var e1 := e.(threads := [Report]);
    var e2 := e.(threads := [TestKeep], reports := reports + 1);
    var e3 := e.(threads := [FirstSample], reports := reports + 1);
    assert Leads(e, AskMembers(0, true), e1) && Leads(e1, Broadcast(0), e2) && Leads(e2, LoadKeep(0), e3);
    assert [Idle][0 := FirstSample] == [FirstSample];
    acts := SampleArms(e3, [Idle]);
    hide CanRun, Run, Leads;
    acts := Prepend(e2, LoadKeep(0), e3, acts);
    acts := Prepend(e1, Broadcast(0), e2, acts);
    acts := Prepend(e, AskMembers(0, true), e1, acts);
  }

  lemma {:induction false} SeveralPeriods(reports: nat, n: nat) returns (acts: seq<Action>)
    ensures CanRun(WaitingFor(reports), acts) && Run(WaitingFor(reports), acts) == WaitingFor(reports + n)
    ensures forall i :: 0 <= i < |acts| ==> !acts[i].Request?
    decreases n
  {
    if n == 0 {
      acts := Nothing(WaitingFor(reports));
    } else {
      acts := OnePeriod(reports);
      var rest := SeveralPeriods(reports + 1, n - 1);
      hide CanRun, Run;
      RunConcat(WaitingFor(reports), acts, rest);
      acts := acts + rest;
    }
  }

  /** For every `n`, a single request, with `cont`, can lead to `n` reports. */
  lemma OneRequestReportsOften(n: nat) returns (acts: seq<Action>)
    ensures CanRun(Start(1), acts) && Run(Start(1), acts) == WaitingFor(n)
    ensures acts[0] == Request(0, true, true) && forall i :: 0 < i < |acts| ==> !acts[i].Request?
  {
    var ask := RequestArms(Start(1));
    assert Start(1).(running := true, keep := true, waits := 1) == WaitingFor(0);
    var rest := SeveralPeriods(0, n);
    hide CanRun, Run;
    RunConcat(Start(1), ask, rest);
    acts := ask + rest;
  }

  /** With two threads it can fail already: a wait is pending and a request is past its store when the
      other thread cancels. */
  lemma CancelCanRaceAStart() returns (past: seq<Action>)
    ensures CanRun(Start(2), past) && Enabled(Run(Start(2), past), StoreStop(1))
    ensures !AtMostOneMore(Step(Run(Start(2), past), StoreStop(1)))
  {
    past := RaceBegins();
    var e := Step(Racing(), StoreStop(1));
    assert MaxReports(e) == 2 by {
      assert e.threads == [BeforeInit, BeforeTimerCancel];
      assert e.threads[1..] == [BeforeTimerCancel] && e.threads[1..][1..] == [];
    }
    hide CanRun, Run, MaxReports;
    AfterCancel(2, past, 1);
  }

  function Armed(keep: bool, a: Pc, b: Pc): State {
    State(true, keep, 1, 0, 0, [a, b], 0, false)
  }

  function Racing(): State {
    Armed(false, BeforeInit, BeforeStop)
  }

  lemma RaceBegins() returns (acts: seq<Action>)
    ensures CanRun(Start(2), acts) && Run(Start(2), acts) == Racing()
  {
    var e0 := Armed(true, Idle, Idle);
    var e1 := Armed(true, Requested(true, true), Idle);
    var e2 := Armed(true, BeforeInit, Idle);
    var e3 := Armed(true, BeforeInit, Requested(false, false));
    assert Start(2).(running := true, keep := true, waits := 1).threads == e0.threads;
    assert Leads(e0, Request(0, true, true), e1);
    assert Leads(e1, StoreCont(0), e2);
    assert Leads(e2, Request(1, false, false), e3);
    assert Leads(e3, StoreCont(1), Racing());
    acts := RequestArms(Start(2));
    hide CanRun, Run, Leads;
    var rest := Nothing(Racing());
    rest := Prepend(e3, StoreCont(1), Racing(), rest);
    rest := Prepend(e2, Request(1, false, false), e3, rest);
    rest := Prepend(e1, StoreCont(0), e2, rest);
    rest := Prepend(e0, Request(0, true, true), e1, rest);
    RunConcat(Start(2), acts, rest);
    acts := acts + rest;
  }
}
