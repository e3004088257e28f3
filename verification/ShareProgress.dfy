/**
 Nobody waits for ever at the shared set: as long as some thread has something to finish, one that does
 can take a step, and without new work all threads come to rest after boundedly many steps, in
 whatever order they run. In particular a destructor that runs inside `exec_to_all`, because the
 promoted pointer was the last one, never waits for a lock that its own thread holds.
 */
module ShareProgress {
  import opened StaticShare

  /** No new work: no object, reference, join or broadcast is begun, and no handler ends. */
  predicate Quiet(a: Action) {
    HasThread(a) && !a.Drop? && !a.StartJoin? && !a.StartExec?
  }

  /** The thread has neither a task nor a destructor to finish. */
  predicate Rests(th: Thread) {
    th.task.Idle? && th.dtor.NotDestroying?
  }

  ghost predicate AllRest(s: System) {
    forall t :: 0 <= t < |s.threads| ==> Rests(s.threads[t])
  }

  // ---------- Some thread can go on ----------

  predicate HolderExists(s: System) {
    s.mutex.HeldBy? ==> s.mutex.t < |s.threads|
  }

  lemma {:induction false} RunKeepsHolder(s: System, acts: seq<Action>)
    requires CanRun(s, acts) && HolderExists(s)
    ensures HolderExists(Run(s, acts)) && |Run(s, acts).threads| == |s.threads|
    decreases |acts|
  {
    if acts != [] {
      StepKeepsHolder(s, acts[0]);
      hide Step, Enabled;
      RunKeepsHolder(Step(s, acts[0]), acts[1..]);
    }
  }

  lemma StepKeepsHolder(s: System, a: Action)
    requires Enabled(s, a) && HolderExists(s)
    ensures HolderExists(Step(s, a))
  {
  }

  /** Who holds the mutex can go on towards releasing it. */
  lemma HolderGoesOn(s: System, t: nat) returns (a: Action)
    requires Inv(s) && t < |s.threads| && s.mutex == HeldBy(t)
    ensures Quiet(a) && Enabled(s, a)
  {
    var th := s.threads[t];
    assert ThreadInv(th, t, s.objects, s.share, s.mutex);
    if th.dtor.Locked? {
      a := DtorErase(t);
    } else if th.task.JoinLocked? {
      a := JoinInsert(t);
    } else if s.share <= th.task.copied {
      a := ExecUnlock(t);
    } else {
      var o :| o in s.share && o !in th.task.copied;
      a := ExecCopy(t, o);
    }
  }

  /** While nobody holds the mutex, everybody with something to finish can go on. */
  lemma AnybodyGoesOn(s: System, t: nat) returns (a: Action)
    requires Inv(s) && t < |s.threads| && s.mutex.Unlocked? && !Rests(s.threads[t])
    ensures Quiet(a) && a.t == t && Enabled(s, a)
  {
    var th := s.threads[t];
    assert ThreadInv(th, t, s.objects, s.share, s.mutex);
    if th.dtor.Waits? {
      a := DtorLock(t);
    } else if th.dtor.Erased? {
      a := DtorFree(t);
    } else {
      match th.task {
        case JoinWaits(_) => a := JoinLock(t);
        case ExecWaits => a := ExecLock(t);
        case Dropping(o) =>
          assert Keeps(th.task, o);
          a := Release(t);
        case Running(_, _, _, _, _) => a := RunnerGoesOn(s, t);
      }
    }
  }

  lemma RunnerGoesOn(s: System, t: nat) returns (a: Action)
    requires Inv(s) && t < |s.threads| && s.threads[t].task.Running? && s.threads[t].dtor.NotDestroying?
    ensures Quiet(a) && a.t == t && Enabled(s, a)
  {
    var task := s.threads[t].task;
    assert ThreadInv(s.threads[t], t, s.objects, s.share, s.mutex);
    match task.hold {
      case Promoted(_) => a := Apply(t);
      case Used(o) =>
        assert Keeps(task, o);
        a := Release(t);
      case NoHold =>
        if task.todo == {} {
          a := ExecEnd(t);
        } else {
          var o :| o in task.todo;
          TodoIsLocked(task, o);
          a := Promote(t, o);
        }
    }
  }

  lemma TodoIsLocked(task: Task, o: nat)
    requires task.Running? && Accounted(task) && o in task.todo
    ensures o in task.locked
  {
    assert multiset(task.locked)[o] >= multiset(task.todo)[o];
  }

  /** No deadlock: in every reachable state in which some thread does not rest, some such thread can take
      a step. */
  lemma NoDeadlock(n: nat, acts: seq<Action>) returns (a: Action)
    requires CanRun(Start(n), acts) && !AllRest(Run(Start(n), acts))
    ensures var s := Run(Start(n), acts);
      Quiet(a) && Enabled(s, a) && a.t < |s.threads| && !Rests(s.threads[a.t])
  {
    var s := Run(Start(n), acts);
    Reachable(n, acts);
    RunKeepsHolder(Start(n), acts);
    hide Run, CanRun;
    a := SomebodyGoesOn(s);
  }

  lemma SomebodyGoesOn(s: System) returns (a: Action)
    requires Inv(s) && HolderExists(s) && !AllRest(s)
    ensures Quiet(a) && Enabled(s, a) && a.t < |s.threads| && !Rests(s.threads[a.t])
  {
    if s.mutex.HeldBy? {
      a := HolderGoesOn(s, s.mutex.t);
    } else {
      var t :| 0 <= t < |s.threads| && !Rests(s.threads[t]);
      a := AnybodyGoesOn(s, t);
    }
    QuietIsBusy(s, a);
  }

  /** Without new work a thread at rest does nothing. */
  lemma QuietIsBusy(s: System, a: Action)
    requires Enabled(s, a) && Quiet(a)
    ensures a.t < |s.threads| && !Rests(s.threads[a.t])
  {
  }

  // ---------- And boundedly often ----------

  /** How many steps a thread with this task still has at most, with `n` objects in the system; letting
      go of an object may start its destructor, which takes three. */
  function TaskWork(task: Task, n: nat): nat {
    match task
    case Idle => 0
    case JoinWaits(_) => 6
    case JoinLocked(_) => 5
    case Dropping(_) => 4
    case ExecWaits => 7 * n + 3
    case Copying(locked, copied) => 6 * n + |locked - copied| + 2
    case Running(_, todo, hold, _, _) =>
      6 * |todo| + 1 + (match hold case NoHold => 0 case Promoted(_) => 5 case Used(_) => 4)
  }

  function DestructorWork(d: Destructor): nat {
    match d
    case NotDestroying => 0
    case Waits(_) => 3
    case Locked(_) => 2
    case Erased(_) => 1
  }

  function ThreadWork(th: Thread, n: nat): nat {
    TaskWork(th.task, n) + DestructorWork(th.dtor)
  }

  function TotalWork(ths: seq<Thread>, n: nat): nat {
    if ths == [] then 0 else ThreadWork(ths[0], n) + TotalWork(ths[1..], n)
  }

  function Work(s: System): nat {
    TotalWork(s.threads, |s.objects|)
  }

  lemma {:induction false} TotalWorkPut(ths: seq<Thread>, t: nat, th: Thread, n: nat)
    requires t < |ths|
    ensures TotalWork(ths[t := th], n) + ThreadWork(ths[t], n) == TotalWork(ths, n) + ThreadWork(th, n)
  {
    if t == 0 {
      assert ths[t := th][1..] == ths[1..];
    } else {
      assert ths[t := th][1..] == ths[1..][t - 1 := th];
      TotalWorkPut(ths[1..], t - 1, th, n);
    }
  }

  /** A set of numbers below `n` has at most `n` of them. */
  lemma {:induction false} AtMost(s: set<nat>, n: nat)
    requires forall x :: x in s ==> x < n
    ensures |s| <= n
  {
    if n > 0 {
      AtMost(s - {n - 1}, n - 1);
    } else {
      assert s == {};
    }
  }

  /** `r` is `s` after a step of thread `t`, which has less left to do. */
  predicate Works(s: System, r: System, t: nat) {
    && t < |s.threads| == |r.threads| && |r.objects| == |s.objects|
    && r.threads == s.threads[t := r.threads[t]]
    && ThreadWork(r.threads[t], |s.objects|) < ThreadWork(s.threads[t], |s.objects|)
  }

  lemma LockerWorks(s: System, t: nat)
    requires Inv(s) && Enabled(s, ExecLock(t))
    ensures Works(s, Step(s, ExecLock(t)), t)
  {
    hide ThreadInv, ObjectInv, DifferentVictims;
    AtMost(s.share, |s.objects|);
    assert s.share - {} == s.share;
  }

  lemma CopierWorks(s: System, t: nat, o: nat)
    requires Inv(s) && Enabled(s, ExecCopy(t, o))
    ensures Works(s, Step(s, ExecCopy(t, o)), t)
  {
    hide ThreadInv, ObjectInv, DifferentVictims;
    ToCopy(s, t, o);
  }

  lemma ToCopy(s: System, t: nat, o: nat)
    requires Inv(s) && Enabled(s, ExecCopy(t, o))
    ensures var task := s.threads[t].task; |task.locked - (task.copied + {o})| < |task.locked - task.copied|
  {
    hide ObjectInv, DifferentVictims, Step;
    var task := s.threads[t].task;
    assert ThreadInv(s.threads[t], t, s.objects, s.share, s.mutex);
    assert o in task.locked - task.copied;
    assert task.locked - (task.copied + {o}) == (task.locked - task.copied) - {o};
  }

  lemma UnlockerWorks(s: System, t: nat)
    requires Inv(s) && Enabled(s, ExecUnlock(t))
    ensures Works(s, Step(s, ExecUnlock(t)), t)
  {
    var task := s.threads[t].task;
    assert ThreadInv(s.threads[t], t, s.objects, s.share, s.mutex);
    hide ThreadInv, ObjectInv, DifferentVictims;
    assert task.copied == s.share;
    AtMost(s.share, |s.objects|);
  }

  lemma RunnerWorks(s: System, a: Action)
    requires Enabled(s, a) && (a.Promote? || a.Apply? || a.ExecEnd?)
    ensures Works(s, Step(s, a), a.t)
  {
  }

  lemma ReleaserWorks(s: System, t: nat)
    requires Enabled(s, Release(t))
    ensures Works(s, Step(s, Release(t)), t)
  {
  }

  lemma JoinerWorks(s: System, a: Action)
    requires Enabled(s, a) && (a.JoinLock? || a.JoinInsert?)
    ensures Works(s, Step(s, a), a.t)
  {
  }

  lemma DestroyerWorks(s: System, a: Action)
    requires Enabled(s, a) && Destroys(a)
    ensures Works(s, Step(s, a), a.t)
  {
  }

  lemma StepWorks(s: System, a: Action)
    requires Inv(s) && Enabled(s, a) && Quiet(a)
    ensures Works(s, Step(s, a), a.t)
  {
    hide Inv, Step, Enabled, Works;
    match a
    case JoinLock(_) => JoinerWorks(s, a);
    case JoinInsert(_) => JoinerWorks(s, a);
    case ExecLock(t) => LockerWorks(s, t);
    case ExecCopy(t, o) => CopierWorks(s, t, o);
    case ExecUnlock(t) => UnlockerWorks(s, t);
    case Promote(_, _) => RunnerWorks(s, a);
    case Apply(_) => RunnerWorks(s, a);
    case ExecEnd(_) => RunnerWorks(s, a);
    case Release(t) => ReleaserWorks(s, t);
    case DtorLock(_) => DestroyerWorks(s, a);
    case DtorErase(_) => DestroyerWorks(s, a);
    case DtorFree(_) => DestroyerWorks(s, a);
  }

  lemma WorkDecreases(s: System, a: Action)
    requires Inv(s) && Enabled(s, a) && Quiet(a)
    ensures Work(Step(s, a)) < Work(s)
  {
    hide Step, ThreadWork, Inv;
    StepWorks(s, a);
    TotalWorkPut(s.threads, a.t, Step(s, a).threads[a.t], |s.objects|);
  }

  /** From every reachable state, whatever the order in which the threads run, they take at most `Work`
      steps without new work. */
  lemma {:induction false} QuietRunsEnd(s: System, acts: seq<Action>)
    requires Inv(s) && CanRun(s, acts) && forall i :: 0 <= i < |acts| ==> Quiet(acts[i])
    ensures |acts| + Work(Run(s, acts)) <= Work(s)
    decreases |acts|
  {
    hide Inv, Step, Enabled, Work;
    if acts != [] {
      WorkDecreases(s, acts[0]);
      StepKeepsInv(s, acts[0]);
      QuietRunsEnd(Step(s, acts[0]), acts[1..]);
    }
  }

  /** So some run brings every thread to rest; and a run that cannot be continued has done so. */
  lemma ThreadsComeToRest(n: nat, acts: seq<Action>) returns (rest: seq<Action>)
    requires CanRun(Start(n), acts)
    ensures forall i :: 0 <= i < |rest| ==> Quiet(rest[i])
    ensures CanRun(Run(Start(n), acts), rest) && AllRest(Run(Run(Start(n), acts), rest))
  {
    Reachable(n, acts);
    RunKeepsHolder(Start(n), acts);
    rest := Finish(Run(Start(n), acts));
  }

  lemma {:induction false} Finish(s: System) returns (rest: seq<Action>)
    requires Inv(s) && HolderExists(s)
    ensures forall i :: 0 <= i < |rest| ==> Quiet(rest[i])
    ensures CanRun(s, rest) && AllRest(Run(s, rest))
    decreases Work(s)
  {
    hide Inv, Step, Enabled, HolderExists, AllRest, Work;
    rest := [];
    if !AllRest(s) {
      var a := SomebodyGoesOn(s);
      WorkDecreases(s, a);
      StepKeepsInv(s, a);
      StepKeepsHolder(s, a);
      var more := Finish(Step(s, a));
      rest := [a] + more;
      assert rest[1..] == more;
    }
  }
}
