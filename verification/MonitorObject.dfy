/**
 The executor object and its handlers as one thread runs them, each proved to be the sequence of
 atomic steps that `Monitor` interleaves.
 */
module MonitorObject {
  import opened Monitor

  /** `calculate`, run by thread 0. */
  function Calculated(e: State, first: bool, uptime: bool): State
    requires |e.threads| == 1 && e.threads[0] == FirstSample
  {
    var e1 := Step(e, SampleFirst(0, first));
    if !first then Step(e1, ClearFlag(0))
    else
      var e2 := Step(e1, ReadUptime(0, uptime));
      if !uptime then Step(e2, ClearFlag(0))
      else Step(Step(e2, ExpiresAfter(0)), AsyncWait(0))
  }

  /** `do_wait` after the broadcast: go on or stop. */
  function Continued(e: State, first: bool, uptime: bool): State
    requires |e.threads| == 1 && e.threads[0] == TestKeep
  {
    var e1 := Step(e, LoadKeep(0));
    if e.keep then Calculated(e1, first, uptime) else Step(e1, ClearFlag(0))
  }

  /** `do_wait` without an error, from the second sample on. */
  function Sampled(e: State, second: bool, members: bool, first: bool, uptime: bool): State
    requires |e.threads| == 1 && e.threads[0] == SecondSample
  {
    var e1 := Step(e, SampleSecond(0, second));
    if !second then e1
    else
      var e2 := Step(e1, AskMembers(0, members));
      if !members then Step(e2, ClearFlag(0)) else Continued(Step(e2, Broadcast(0)), first, uptime)
  }

  /** A request, from the store of `keep_reading_` on. */
  function Asked(e: State, starts: bool, first: bool, uptime: bool): State
    requires e.threads == [if starts then BeforeInit else BeforeStop]
  {
    if !starts then Step(Step(e, StoreStop(0)), CancelTimer(0))
    else if e.running then Step(e, CompareExchange(0))
    else Calculated(Step(e, CompareExchange(0)), first, uptime)
  }

  // ---------- What the sequences of steps reach ----------

  /** Some run leads from `e` to `f`, and stores `keep_reading_` in a request only if `stores`. */
  ghost predicate Reaches(e: State, f: State, stores: bool) {
    exists acts: seq<Action> ::
      CanRun(e, acts) && Run(e, acts) == f && (stores || forall i :: 0 <= i < |acts| ==> !acts[i].StoreCont?)
  }

  lemma ReachesItself(e: State, stores: bool)
    ensures Reaches(e, e, stores)
  {
    var acts: seq<Action> := [];
    assert CanRun(e, acts) && Run(e, acts) == e;
  }

  lemma ReachesStep(e: State, f: State, a: Action, stores: bool)
    requires Reaches(e, f, stores) && Enabled(f, a) && (a.StoreCont? ==> stores)
    ensures Reaches(e, Step(f, a), stores)
  {
    var acts: seq<Action> :| CanRun(e, acts) && Run(e, acts) == f
      && (stores || forall i :: 0 <= i < |acts| ==> !acts[i].StoreCont?);
    assert CanRun(f, [a]) && Run(f, [a]) == Step(f, a) by {
      assert [a][1..] == [];
    }
    hide CanRun, Run, Step;
    RunConcat(e, acts, [a]);
    assert CanRun(e, acts + [a]);
  }

  lemma ReachesFurther(e: State, f: State, g: State, stores: bool, more: bool)
    requires Reaches(e, f, stores) && Reaches(f, g, more)
    ensures Reaches(e, g, stores || more)
  {
    var a: seq<Action> :| CanRun(e, a) && Run(e, a) == f
      && (stores || forall i :: 0 <= i < |a| ==> !a[i].StoreCont?);
    var b: seq<Action> :| CanRun(f, b) && Run(f, b) == g
      && (more || forall i :: 0 <= i < |b| ==> !b[i].StoreCont?);
    hide CanRun, Run;
    RunConcat(e, a, b);
    assert CanRun(e, a + b);
  }

  lemma CalculatedReached(e0: State, e: State, first: bool, uptime: bool, stores: bool)
    requires |e.threads| == 1 && e.threads[0] == FirstSample && Reaches(e0, e, stores)
    ensures Reaches(e0, Calculated(e, first, uptime), stores)
  {
    hide Reaches;
    var e1 := Step(e, SampleFirst(0, first));
    ReachesStep(e0, e, SampleFirst(0, first), stores);
    if !first {
      ReachesStep(e0, e1, ClearFlag(0), stores);
    } else {
      var e2 := Step(e1, ReadUptime(0, uptime));
      ReachesStep(e0, e1, ReadUptime(0, uptime), stores);
      if !uptime {
        ReachesStep(e0, e2, ClearFlag(0), stores);
      } else {
        ReachesStep(e0, e2, ExpiresAfter(0), stores);
        ReachesStep(e0, Step(e2, ExpiresAfter(0)), AsyncWait(0), stores);
      }
    }
  }

  lemma SampledReached(e0: State, e: State, second: bool, members: bool, first: bool, uptime: bool, stores: bool)
    requires |e.threads| == 1 && e.threads[0] == SecondSample && Reaches(e0, e, stores)
    ensures Reaches(e0, Sampled(e, second, members, first, uptime), stores)
  {
    hide Reaches, Continued;
    var e1 := Step(e, SampleSecond(0, second));
    ReachesStep(e0, e, SampleSecond(0, second), stores);
    if second {
      var e2 := Step(e1, AskMembers(0, members));
      ReachesStep(e0, e1, AskMembers(0, members), stores);
      if !members {
        ReachesStep(e0, e2, ClearFlag(0), stores);
      } else {
        ReachesStep(e0, e2, Broadcast(0), stores);
        ContinuedReached(e0, Step(e2, Broadcast(0)), first, uptime, stores);
      }
    }
  }

  lemma ContinuedReached(e0: State, e: State, first: bool, uptime: bool, stores: bool)
    requires |e.threads| == 1 && e.threads[0] == TestKeep && Reaches(e0, e, stores)
    ensures Reaches(e0, Continued(e, first, uptime), stores)
  {
    hide Reaches, Calculated;
    var e1 := Step(e, LoadKeep(0));
    ReachesStep(e0, e, LoadKeep(0), stores);
    if e.keep {
      CalculatedReached(e0, e1, first, uptime, stores);
    } else {
      ReachesStep(e0, e1, ClearFlag(0), stores);
    }
  }

  // ---------- The object ----------

  /** What the executor can be asked to do: a request, or a step of the timer. */
  datatype Event =
    | Ask(cont: bool, starts: bool, sampleTime: int, first: bool, uptime: bool)
    | Fires
    | Expired(second: bool, members: bool, first: bool, uptime: bool)
    | Cancelled

  // ---------- What the executor is for, as an automaton ----------

  /** Free to start; waiting for the timer; the timer has fired and its callback is queued; the wait was
      cancelled and its callback is queued; or dead, with the token lost. */
  datatype Phase = Free | Waiting | Fired | Aborted | Lost

  datatype View = View(phase: Phase, keep: bool, sampleTime: int, reports: nat)

  /** One event. What the timer has nothing for does nothing. */
  function After(v: View, ev: Event): View {
    match ev
    case Ask(cont, true, sampleTime, first, uptime) =>
      v.(keep := cont, sampleTime := sampleTime,
         phase := if v.phase.Free? && first && uptime then Waiting else v.phase)
    case Ask(_, false, _, _, _) =>
      v.(keep := false, phase := if v.phase.Waiting? then Aborted else v.phase)
    case Fires => v.(phase := if v.phase.Waiting? then Fired else v.phase)
    case Cancelled => v.(phase := if v.phase.Aborted? then Free else v.phase)
    case Expired(second, members, first, uptime) =>
      if !v.phase.Fired? then v
      else if !second then v.(phase := Lost)
      else if !members then v.(phase := Free)
      else v.(reports := v.reports + 1, phase := if v.keep && first && uptime then Waiting else Free)
  }

  function AfterAll(v: View, events: seq<Event>): View
    decreases |events|
  {
    if events == [] then v else AfterAll(After(v, events[0]), events[1..])
  }

  /** A cancel stops the monitor at once, unless the timer has fired already: nothing more is reported
      without a new request, whatever the timer does; and when the callback of the cancelled wait has
      run, the executor can be started again. */
  lemma {:induction false} CancelStops(v: View, events: seq<Event>)
    requires !v.keep && !v.phase.Waiting? && !v.phase.Fired?
    requires forall i :: 0 <= i < |events| ==> !events[i].Ask?
    ensures var r := AfterAll(v, events);
      && r.reports == v.reports && !r.keep
      && (v.phase.Free? || (v.phase.Aborted? && Cancelled in events) ==> r.phase.Free?)
    decreases |events|
  {
    if events != [] {
      CancelStops(After(v, events[0]), events[1..]);
    }
  }

  /** Nothing is reported, and the executor never starts again, after a failed second sample. */
  lemma {:induction false} LostIsForever(v: View, events: seq<Event>)
    requires v.phase.Lost?
    ensures AfterAll(v, events).phase.Lost? && AfterAll(v, events).reports == v.reports
    decreases |events|
  {
    if events != [] {
      LostIsForever(After(v, events[0]), events[1..]);
    }
  }

  /** `n` times: the timer fires, and all samples succeed. */
  function Periods(n: nat): seq<Event> {
    if n == 0 then [] else [Fires, Expired(true, true, true, true)] + Periods(n - 1)
  }

  /** With `cont`, one request makes as many reports as there are periods, and the monitor is waiting
      for the next one; without, it makes one report and is free again. */
  lemma {:induction false} GoesOn(v: View, n: nat)
    requires v.phase.Waiting?
    ensures v.keep ==> AfterAll(v, Periods(n)) == v.(reports := v.reports + n)
    ensures !v.keep ==> AfterAll(v, Periods(1)) == v.(reports := v.reports + 1, phase := Free)
    decreases n
  {
    var one := [Fires, Expired(true, true, true, true)];
    var fired := After(v, Fires);
    assert Periods(1) == one + [] && one[1..] == [one[1]];
    assert AfterAll(fired, [one[1]]) == AfterAll(After(fired, one[1]), []);
    if n > 0 && v.keep {
      assert Periods(n)[1..] == [one[1]] + Periods(n - 1) && Periods(n)[1..][1..] == Periods(n - 1);
      GoesOn(After(fired, one[1]), n - 1);
    }
  }

  /** So a single request with `cont` can be answered by any number of reports. */
  lemma RequestThenPeriods(n: nat, sampleTime: int)
    ensures var v := AfterAll(View(Free, false, 1, 0), [Ask(true, true, sampleTime, true, true)] + Periods(n));
      v == View(Waiting, true, sampleTime, n)
  {
    var ask := Ask(true, true, sampleTime, true, true);
    assert ([ask] + Periods(n))[1..] == Periods(n);
    GoesOn(View(Waiting, true, sampleTime, 0), n);
  }

  // ---------- The automaton and the steps ----------

  /** What holds between events on one thread. */
  predicate Settled(e: State) {
    && e.threads == [Idle]
    && e.waits + e.expired + e.aborted <= 1
    && (e.running <==> e.waits + e.expired + e.aborted == 1 || e.leaked)
    && (e.leaked ==> e.waits + e.expired + e.aborted == 0)
  }

  function ViewOf(e: State, sampleTime: int): View {
    View(if e.leaked then Lost else if e.waits > 0 then Waiting else if e.expired > 0 then Fired
         else if e.aborted > 0 then Phase.Aborted else Free,
         e.keep, sampleTime, e.reports)
  }

  lemma CalculatedMoves(e: State, first: bool, uptime: bool)
    requires e.threads == [FirstSample] && e.running && !e.leaked && e.waits + e.expired + e.aborted == 0
    ensures Calculated(e, first, uptime) ==
      e.(threads := [Idle], running := first && uptime, waits := if first && uptime then 1 else 0)
  {
  }

  lemma AskMoves(e: State, ev: Event, sampleTime: int)
    requires Settled(e) && ev.Ask?
    ensures var e1 := Step(Step(e, Request(0, ev.cont, ev.starts)), StoreCont(0));
      var r := Asked(e1, ev.starts, ev.first, ev.uptime);
      && Settled(r)
      && ViewOf(r, if ev.starts then ev.sampleTime else sampleTime) == After(ViewOf(e, sampleTime), ev)
  {
    var e1 := Step(Step(e, Request(0, ev.cont, ev.starts)), StoreCont(0));
    if ev.starts && !e1.running {
      CalculatedMoves(Step(e1, CompareExchange(0)), ev.first, ev.uptime);
    }
    hide Calculated;
  }

  lemma ContinuedMoves(e: State, first: bool, uptime: bool)
    requires e.threads == [TestKeep] && e.running && !e.leaked && e.waits + e.expired + e.aborted == 0
    ensures var on := e.keep && first && uptime;
      Continued(e, first, uptime) == e.(threads := [Idle], running := on, waits := if on then 1 else 0)
  {
    if e.keep {
      assert Step(e, LoadKeep(0)) == e.(threads := [FirstSample]);
      CalculatedMoves(e.(threads := [FirstSample]), first, uptime);
    } else {
      assert Step(e, LoadKeep(0)) == e.(threads := [Clear]);
    }
    hide Calculated;
  }

  lemma SampledMoves(e: State, ev: Event)
    requires ev.Expired? && e.threads == [SecondSample] && e.running && !e.leaked
    requires e.waits + e.expired + e.aborted == 0
    ensures var on := e.keep && ev.first && ev.uptime;
      Sampled(e, ev.second, ev.members, ev.first, ev.uptime) ==
        if !ev.second then e.(threads := [Idle], leaked := true)
        else if !ev.members then e.(threads := [Idle], running := false)
        else e.(threads := [Idle], running := on, waits := if on then 1 else 0, reports := e.reports + 1)
  {
    hide Continued, Calculated;
    if ev.second {
      assert Step(e, SampleSecond(0, true)) == e.(threads := [CountMembers]);
      var e2 := Step(e.(threads := [CountMembers]), AskMembers(0, ev.members));
      if ev.members {
        assert e2 == e.(threads := [Report]);
        var e3 := e.(threads := [TestKeep], reports := e.reports + 1);
        assert Step(e2, Broadcast(0)) == e3;
        ContinuedMoves(e3, ev.first, ev.uptime);
      } else {
        assert e2 == e.(threads := [Clear]);
      }
    }
  }

  lemma ExpiredMoves(e: State, ev: Event, sampleTime: int)
    requires Settled(e) && ev.Expired? && e.expired > 0
    ensures var r := Sampled(Step(e, RunExpired(0)), ev.second, ev.members, ev.first, ev.uptime);
      && Settled(r)
      && ViewOf(r, sampleTime) == After(ViewOf(e, sampleTime), ev)
  {
    var e1 := e.(threads := [SecondSample], expired := 0);
    assert Step(e, RunExpired(0)) == e1;
    SampledMoves(e1, ev);
    hide Sampled, Step;
  }

  lemma TimerMoves(e: State, sampleTime: int)
    requires Settled(e)
    ensures e.waits > 0 ==> var r := Step(e, TimerFires);
      Settled(r) && ViewOf(r, sampleTime) == After(ViewOf(e, sampleTime), Fires)
    ensures e.aborted > 0 ==> var r := Step(Step(e, RunAborted(0)), ClearFlag(0));
      Settled(r) && ViewOf(r, sampleTime) == After(ViewOf(e, sampleTime), Cancelled)
  {
  }

  class Executor {
    var isRunning: bool
    var keepReading: bool
    var sample: int
    var waits: nat        // the timer's pending waits and the callbacks it has queued
    var expired: nat
    var aborted: nat
    ghost var reports: nat
    ghost var leaked: bool

    constructor ()
      ensures At(Idle) == Start(1) && sample == 1
    {
      isRunning, keepReading, sample := false, false, 1;
      waits, expired, aborted, reports, leaked := 0, 0, 0, 0, false;
    }

    /** The state with the one thread at `pc`. */
    ghost function At(pc: Pc): State
      reads this
    {
      State(isRunning, keepReading, waits, expired, aborted, [pc], reports, leaked)
    }

    method Continuos(cont: bool, ghost starts: bool)
      modifies this
      ensures At(if starts then BeforeInit else BeforeStop) == Step(old(At(Requested(cont, starts))), StoreCont(0))
      ensures sample == old(sample)
    {
      keepReading := cont;
    }

    method Cancel()
      modifies this
      ensures At(Idle) == Step(Step(old(At(BeforeStop)), StoreStop(0)), CancelTimer(0))
      ensures sample == old(sample)
    {
      keepReading := false;
      waits, aborted := 0, aborted + waits;
    }

    /** The outcomes of sampling the process are parameters. */
    method Calculate(first: bool, uptime: bool)
      modifies this
      ensures At(Idle) == Calculated(old(At(FirstSample)), first, uptime)
      ensures sample == old(sample)
    {
      if !first {
        isRunning := false;
        return;
      }
      if !uptime {
        isRunning := false;
        return;
      }
      waits, aborted := 0, aborted + waits;
      waits := waits + 1;
    }

    method Init(first: bool, uptime: bool) returns (r: bool)
      modifies this
      ensures var e := Step(old(At(BeforeInit)), CompareExchange(0));
        At(Idle) == if old(isRunning) then e else Calculated(e, first, uptime)
      ensures r == isRunning && sample == old(sample)
    {
      hide Calculated;
      if !isRunning {
        isRunning := true;
        assert At(FirstSample) == Step(old(At(BeforeInit)), CompareExchange(0));
        Calculate(first, uptime);
      }
      r := isRunning;
    }

    method Continue(first: bool, uptime: bool)
      modifies this
      ensures At(Idle) == Continued(old(At(TestKeep)), first, uptime)
      ensures sample == old(sample)
    {
      hide Calculated;
      if keepReading {
        assert At(FirstSample) == Step(old(At(TestKeep)), LoadKeep(0));
        Calculate(first, uptime);
      } else {
        isRunning := false;
      }
    }

    /** The report is broadcast, and `do_wait` goes on or stops. */
    method SendReport(first: bool, uptime: bool)
      modifies this
      ensures At(Idle) == Continued(Step(old(At(Report)), Broadcast(0)), first, uptime)
      ensures sample == old(sample)
    {
      hide Continued;
      reports := reports + 1;
      assert Step(old(At(Report)), Broadcast(0)) == At(TestKeep);
      Continue(first, uptime);
    }

    method Sample(second: bool, members: bool, first: bool, uptime: bool)
      modifies this
      ensures At(Idle) == Sampled(old(At(SecondSample)), second, members, first, uptime)
      ensures sample == old(sample)
    {
      hide Continued;
      if !second {
        leaked := true;
        return;
      }
      if !members {
        isRunning := false;
        return;
      }
      ghost var e1 := Step(old(At(SecondSample)), SampleSecond(0, second));
      assert e1 == At(CountMembers);
      assert Step(e1, AskMembers(0, members)) == At(Report);
      SendReport(first, uptime);
    }

    method DoWait(failed: bool, second: bool, members: bool, first: bool, uptime: bool)
      requires if failed then aborted > 0 else expired > 0
      modifies this
      ensures At(Idle) ==
        if failed then Step(Step(old(At(Idle)), RunAborted(0)), ClearFlag(0))
        else Sampled(Step(old(At(Idle)), RunExpired(0)), second, members, first, uptime)
      ensures sample == old(sample)
    {
      hide Sampled;
      if failed {
        aborted := aborted - 1;
        isRunning := false;
        return;
      }
      expired := expired - 1;
      assert At(SecondSample) == Step(old(At(Idle)), RunExpired(0));
      Sample(second, members, first, uptime);
    }

    /** `send_monitor_data` for a well-formed request. */
    method SendMonitorData(cont: bool, starts: bool, sampleTime: int, first: bool, uptime: bool)
      modifies this
      ensures sample == if starts then sampleTime else old(sample)
      ensures var e := Step(old(At(Requested(cont, starts))), StoreCont(0));
        At(Idle) == Asked(e, starts, first, uptime)
    {
      Continuos(cont, starts);
      if starts {
        sample := sampleTime;
        var _ := Init(first, uptime);
        return;
      }
      Cancel();
    }

    ghost predicate Valid()
      reads this
    {
      Settled(At(Idle))
    }

    ghost function Seen(): View
      reads this
    {
      ViewOf(At(Idle), sample)
    }

    /** The timer has something for this event. */
    predicate Possible(ev: Event)
      reads this
    {
      match ev
      case Ask(_, _, _, _, _) => true
      case Fires => waits > 0
      case Expired(_, _, _, _) => expired > 0
      case Cancelled => aborted > 0
    }

    /** One event, as a run of the transition system and as a move of the automaton. */
    method Perform(ev: Event)
      requires Possible(ev)
      modifies this
      ensures Reaches(old(At(Idle)), At(Idle), ev.Ask?)
      ensures old(Valid()) ==> Valid() && Seen() == After(old(Seen()), ev)
    {
      ghost var e := At(Idle);
      ReachesItself(e, ev.Ask?);
      hide Reaches, Settled, ViewOf, After, Calculated, Sampled;
      match ev {
        case Ask(cont, starts, sampleTime, first, uptime) =>
          PerformAsk(ev);
        case Fires =>
          PerformFires();
        case Expired(second, members, first, uptime) =>
          if Settled(e) { ExpiredMoves(e, ev, sample); }
          ReachesStep(e, e, RunExpired(0), false);
          SampledReached(e, Step(e, RunExpired(0)), second, members, first, uptime, false);
          DoWait(false, second, members, first, uptime);
        case Cancelled =>
          if Settled(e) { TimerMoves(e, sample); }
          ReachesStep(e, e, RunAborted(0), false);
          ReachesStep(e, Step(e, RunAborted(0)), ClearFlag(0), false);
          DoWait(true, false, false, false, false);
      }
    }

    method PerformFires()
      requires waits > 0
      modifies this
      ensures Reaches(old(At(Idle)), At(Idle), false)
      ensures old(Valid()) ==> Valid() && Seen() == After(old(Seen()), Fires)
    {
      ghost var e := At(Idle);
      hide Reaches, Settled, ViewOf, After;
      ReachesItself(e, false);
      if Settled(e) { TimerMoves(e, sample); }
      ReachesStep(e, e, TimerFires, false);
      waits, expired := waits - 1, expired + 1;
      assert At(Idle) == Step(e, TimerFires);
    }

    method PerformAsk(ev: Event)
      requires ev.Ask?
      modifies this
      ensures Reaches(old(At(Idle)), At(Idle), true)
      ensures old(Valid()) ==> Valid() && Seen() == After(old(Seen()), ev)
    {
      ghost var e := At(Idle);
      hide Reaches, Settled, ViewOf, After, Calculated;
      RequestReached(e, ev.cont, ev.starts, ev.first, ev.uptime);
      if Settled(e) { AskMoves(e, ev, sample); }
      assert Step(e, Request(0, ev.cont, ev.starts)) == At(Requested(ev.cont, ev.starts));
      SendMonitorData(ev.cont, ev.starts, ev.sampleTime, ev.first, ev.uptime);
    }

    /** One event, if the timer has anything for it. */
    method Take(ev: Event)
      requires Valid()
      modifies this
      ensures Reaches(old(At(Idle)), At(Idle), ev.Ask?)
      ensures Valid() && Seen() == After(old(Seen()), ev)
    {
      if Possible(ev) {
        Perform(ev);
      } else {
        ReachesItself(At(Idle), ev.Ask?);
      }
    }

    /** Any sequence of events, those for which the timer has nothing left out: the fields are what the
        automaton comes to. Between events the flag is set exactly while one wait or callback is
        pending, or for good after a failed second sample; and while nobody asks and `keep_reading_` is
        false, at most one report is sent. */
    method Serve(events: seq<Event>)
      requires Reaches(Start(1), At(Idle), true)
      modifies this
      ensures Reaches(Start(1), At(Idle), true)
      ensures Valid() && Seen() == AfterAll(old(Seen()), events)
      ensures !old(keepReading) && (forall i :: 0 <= i < |events| ==> !events[i].Ask?) ==>
        reports <= old(reports) + 1
    {
      ghost var quiet := forall i :: 0 <= i < |events| ==> !events[i].Ask?;
      ghost var e := At(Idle);
      ghost var v := Seen();
      AtRest(e);
      ReachesItself(e, !quiet);
      var i := 0;
      while i < |events|
        invariant i <= |events| && Reaches(e, At(Idle), !quiet)
        invariant Valid() && AfterAll(v, events) == AfterAll(Seen(), events[i..])
      {
        hide Reaches, After;
        ghost var f := At(Idle);
        Take(events[i]);
        ReachesFurther(e, f, At(Idle), !quiet, events[i].Ask?);
        assert events[i..][1..] == events[i + 1..];
        i := i + 1;
      }
      ReachesFurther(Start(1), e, At(Idle), true, !quiet);
      if quiet && !e.keep {
        QuietReports(e, At(Idle));
      }
    }
  }

  /** What is known between events on one thread. */
  lemma AtRest(e: State)
    requires Reaches(Start(1), e, true) && e.threads == [Idle]
    ensures Inv(e) && CountIf(Active, e.threads) == 0
    ensures var pending := e.waits + e.expired + e.aborted;
      pending <= 1 && (e.running <==> pending == 1 || e.leaked) && !(pending == 1 && e.leaked)
      && MaxReports(e) <= 1
  {
    var acts: seq<Action> :| CanRun(Start(1), acts) && Run(Start(1), acts) == e;
    Reachable(1, acts);
    CountIfNone(Active, e.threads);
    CountIfNone(Reporting, e.threads);
    CountIfNone(Starting, e.threads);
    hide CanRun, Run, CountIf;
  }

  lemma QuietReports(e: State, f: State)
    requires Inv(e) && !e.keep && MaxReports(e) <= 1 && Reaches(e, f, false)
    ensures f.reports <= e.reports + 1
  {
    var acts: seq<Action> :| CanRun(e, acts) && Run(e, acts) == f
      && forall i :: 0 <= i < |acts| ==> !acts[i].StoreCont?;
    hide CanRun, Run, MaxReports, Inv;
    ReportsBounded(e, acts);
  }

  lemma RequestReached(e: State, cont: bool, starts: bool, first: bool, uptime: bool)
    requires e.threads == [Idle]
    ensures var e1 := Step(Step(e, Request(0, cont, starts)), StoreCont(0));
      Reaches(e, Asked(e1, starts, first, uptime), true)
  {
    var e0 := Step(e, Request(0, cont, starts));
    var e1 := Step(e0, StoreCont(0));
    ReachesItself(e, true);
    ReachesStep(e, e, Request(0, cont, starts), true);
    ReachesStep(e, e0, StoreCont(0), true);
    hide Reaches, Calculated;
    if !starts {
      ReachesStep(e, e1, StoreStop(0), true);
      ReachesStep(e, Step(e1, StoreStop(0)), CancelTimer(0), true);
    } else {
      ReachesStep(e, e1, CompareExchange(0), true);
      if !e1.running {
        CalculatedReached(e, Step(e1, CompareExchange(0)), first, uptime, true);
      }
    }
  }
}
