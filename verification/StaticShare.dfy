/**
 The shared membership set under any interleaving of threads: a mutex around the set of raw
 pointers, weak pointers copied under the mutex and promoted outside it, and a destructor that
 removes its object from the set under the same mutex before the memory is released.

 Each `Action` is one atomic step of one thread. An object is owned by a set of tokens, one for
 every `shared_ptr` that refers to it; when the last token goes, the thread that dropped it runs
 the destructor.
 */
module StaticShare {

  datatype Token = External(id: nat) | OfThread(t: nat)

  datatype Phase = Alive | Dying | Freed

  datatype Object = Object(owners: set<Token>, phase: Phase)

  /** What a thread of `exec_to_all` does with the pointer it has promoted. */
  datatype Hold = NoHold | Promoted(o: nat) | Used(o: nat)

  datatype Task =
    | Idle
    | JoinWaits(o: nat)                  // in `join`, before the lock
    | JoinLocked(o: nat)
    | Dropping(o: nat)                   // about to drop the thread's own token
    | ExecWaits                          // in `exec_to_all`, before the lock
    | Copying(locked: set<nat>, copied: set<nat>)
    | Running(locked: set<nat>, todo: set<nat>, hold: Hold, applied: seq<nat>, skipped: seq<nat>)

  datatype Destructor = NotDestroying | Waits(o: nat) | Locked(o: nat) | Erased(o: nat)

  datatype Thread = Thread(task: Task, dtor: Destructor)

  datatype Mutex = Unlocked | HeldBy(t: nat)

  datatype System = System(objects: seq<Object>, share: set<nat>, mutex: Mutex, threads: seq<Thread>)

  datatype Action =
    | Create
    | Retain(o: nat, id: nat)            // somebody copies a shared_ptr
    | Drop(t: nat, o: nat, id: nat)      // a handler of thread t ends and drops its shared_ptr
    | StartJoin(t: nat, o: nat)
    | JoinLock(t: nat)
    | JoinInsert(t: nat)
    | StartExec(t: nat)
    | ExecLock(t: nat)
    | ExecCopy(t: nat, o: nat)
    | ExecUnlock(t: nat)
    | Promote(t: nat, o: nat)
    | Apply(t: nat)
    | Release(t: nat)
    | ExecEnd(t: nat)
    | DtorLock(t: nat)
    | DtorErase(t: nat)
    | DtorFree(t: nat)

  predicate HasThread(a: Action) {
    !a.Create? && !a.Retain?
  }

  predicate Destroys(a: Action) {
    a.DtorLock? || a.DtorErase? || a.DtorFree?
  }

  predicate Enabled(s: System, a: Action) {
    && (HasThread(a) ==> a.t < |s.threads| && (!Destroys(a) ==> s.threads[a.t].dtor.NotDestroying?))
    && match a
       case Create => true
       case Retain(o, _) => o < |s.objects| && s.objects[o].owners != {}
       case Drop(t, o, id) => o < |s.objects| && External(id) in s.objects[o].owners && s.threads[t].task.Idle?
       case StartJoin(t, o) => o < |s.objects| && s.objects[o].owners != {} && s.threads[t].task.Idle?
       case JoinLock(t) => s.threads[t].task.JoinWaits? && s.mutex.Unlocked?
       case JoinInsert(t) => s.threads[t].task.JoinLocked?
       case StartExec(t) => s.threads[t].task.Idle?
       case ExecLock(t) => s.threads[t].task.ExecWaits? && s.mutex.Unlocked?
       case ExecCopy(t, o) => s.threads[t].task.Copying? && o in s.share && o !in s.threads[t].task.copied
       case ExecUnlock(t) => s.threads[t].task.Copying? && s.share <= s.threads[t].task.copied
       case Promote(t, o) =>
         s.threads[t].task.Running? && s.threads[t].task.hold.NoHold? && o in s.threads[t].task.todo
         && o < |s.objects|
       case Apply(t) => s.threads[t].task.Running? && s.threads[t].task.hold.Promoted?
       case Release(t) =>
         Held(s.threads[t].task) && HeldObject(s.threads[t].task) < |s.objects|
       case ExecEnd(t) =>
         s.threads[t].task.Running? && s.threads[t].task.hold.NoHold? && s.threads[t].task.todo == {}
       case DtorLock(t) => s.threads[t].dtor.Waits? && s.mutex.Unlocked?
       case DtorErase(t) => s.threads[t].dtor.Locked?
       case DtorFree(t) => s.threads[t].dtor.Erased? && s.threads[t].dtor.o < |s.objects|
  }

  /** The thread is done with its own pointer and will drop it next. */
  predicate Held(task: Task) {
    task.Dropping? || (task.Running? && task.hold.Used?)
  }

  function HeldObject(task: Task): nat
    requires Held(task)
  {
    if task.Dropping? then task.o else task.hold.o
  }

  /** Remove a token; the thread that removes the last one runs the destructor. */
  function DropToken(s: System, t: nat, o: nat, token: Token): System
    requires t < |s.threads| && o < |s.objects|
  {
    var owners := s.objects[o].owners - {token};
    if owners == {} then
      s.(objects := s.objects[o := Object({}, Dying)],
         threads := s.threads[t := s.threads[t].(dtor := Waits(o))])
    else
      s.(objects := s.objects[o := s.objects[o].(owners := owners)])
  }

  function AddToken(s: System, o: nat, token: Token): System
    requires o < |s.objects|
  {
    s.(objects := s.objects[o := s.objects[o].(owners := s.objects[o].owners + {token})])
  }

  function Goto(s: System, t: nat, task: Task): System
    requires t < |s.threads|
  {
    s.(threads := s.threads[t := s.threads[t].(task := task)])
  }

  function Destroy(s: System, t: nat, dtor: Destructor): System
    requires t < |s.threads|
  {
    s.(threads := s.threads[t := s.threads[t].(dtor := dtor)])
  }

  function Step(s: System, a: Action): (r: System)
    requires Enabled(s, a)
    ensures |r.threads| == |s.threads|
  {
    match a
    case Create => s.(objects := s.objects + [Object({External(0)}, Alive)])
    case Retain(o, id) => AddToken(s, o, External(id))
    case Drop(t, o, id) => DropToken(s, t, o, External(id))
    case StartJoin(t, o) => Goto(AddToken(s, o, OfThread(t)), t, JoinWaits(o))
    case JoinLock(t) => Goto(s, t, JoinLocked(s.threads[t].task.o)).(mutex := HeldBy(t))
    case JoinInsert(t) =>
      var o := s.threads[t].task.o;
      Goto(s, t, Dropping(o)).(share := s.share + {o}, mutex := Unlocked)
    case StartExec(t) => Goto(s, t, ExecWaits)
    case ExecLock(t) => Goto(s, t, Copying(s.share, {})).(mutex := HeldBy(t))
    case ExecCopy(t, o) =>
      var task := s.threads[t].task;
      Goto(s, t, task.(copied := task.copied + {o}))
    case ExecUnlock(t) =>
      var task := s.threads[t].task;
      Goto(s, t, Running(task.locked, task.copied, NoHold, [], [])).(mutex := Unlocked)
    case Promote(t, o) =>
      var task := s.threads[t].task;
      if s.objects[o].owners != {} then
        Goto(AddToken(s, o, OfThread(t)), t, task.(todo := task.todo - {o}, hold := Promoted(o)))
      else
        Goto(s, t, task.(todo := task.todo - {o}, skipped := task.skipped + [o]))
    case Apply(t) =>
      var task := s.threads[t].task;
      Goto(s, t, task.(hold := Used(task.hold.o), applied := task.applied + [task.hold.o]))
    case Release(t) =>
      var task := s.threads[t].task;
      var next := if task.Dropping? then Idle else task.(hold := NoHold);
      DropToken(Goto(s, t, next), t, HeldObject(task), OfThread(t))
    case ExecEnd(t) => Goto(s, t, Idle)
    case DtorLock(t) => Destroy(s, t, Locked(s.threads[t].dtor.o)).(mutex := HeldBy(t))
    case DtorErase(t) =>
      var o := s.threads[t].dtor.o;
      Destroy(s, t, Erased(o)).(share := s.share - {o}, mutex := Unlocked)
    case DtorFree(t) =>
      var o := s.threads[t].dtor.o;
      Destroy(s, t, NotDestroying).(objects := s.objects[o := s.objects[o].(phase := Freed)])
  }

  function Start(threads: nat): System {
    System([], {}, Unlocked, seq(threads, _ => Thread(Idle, NotDestroying)))
  }

  predicate CanRun(s: System, acts: seq<Action>)
    decreases |acts|
  {
    acts == [] || (Enabled(s, acts[0]) && CanRun(Step(s, acts[0]), acts[1..]))
  }

  function Run(s: System, acts: seq<Action>): System
    requires CanRun(s, acts)
    decreases |acts|
  {
    if acts == [] then s else Run(Step(s, acts[0]), acts[1..])
  }

  // ---------- The invariant ----------

  predicate Critical(th: Thread) {
    th.task.JoinLocked? || th.task.Copying? || th.dtor.Locked?
  }

  /** The object, if any, that the thread itself keeps alive. */
  predicate Keeps(task: Task, o: nat) {
    || (task.JoinWaits? && task.o == o)
    || (task.JoinLocked? && task.o == o)
    || (task.Dropping? && task.o == o)
    || (task.Running? && !task.hold.NoHold? && task.hold.o == o)
  }

  function InHand(hold: Hold): set<nat> {
    if hold.Promoted? then {hold.o} else {}
  }

  /** Every member of the locked set is still to be visited, in hand, applied or skipped: exactly
      one of these, once. */
  ghost predicate Accounted(task: Task)
    requires task.Running?
  {
    multiset(task.applied) + multiset(task.skipped) + multiset(task.todo) + multiset(InHand(task.hold))
      == multiset(task.locked)
  }

  ghost predicate TaskInv(task: Task, t: nat, objects: seq<Object>, share: set<nat>) {
    && (forall o: nat :: Keeps(task, o) ==> o < |objects| && OfThread(t) in objects[o].owners)
    && (task.Copying? ==> task.locked == share && task.copied <= share)
    && (task.Running? ==>
          && Accounted(task)
          && (forall o :: o in task.locked ==> o < |objects|)
          && (forall i :: 0 <= i < |task.skipped| ==>
                task.skipped[i] < |objects| && objects[task.skipped[i]].owners == {}))
  }

  ghost predicate DtorInv(th: Thread, objects: seq<Object>, share: set<nat>) {
    && (!th.dtor.NotDestroying? ==>
          && th.dtor.o < |objects| && objects[th.dtor.o].phase == Dying
          && (th.task.Idle? || th.task.Running?))
    && (th.dtor.Erased? ==> th.dtor.o !in share)
  }

  ghost predicate ThreadInv(th: Thread, t: nat, objects: seq<Object>, share: set<nat>, mutex: Mutex) {
    && TaskInv(th.task, t, objects, share)
    && DtorInv(th, objects, share)
    && (Critical(th) <==> mutex == HeldBy(t))
  }

  ghost predicate ObjectInv(x: Object, member: bool) {
    && (x.phase == Alive <==> x.owners != {})
    && (member ==> x.phase != Freed)
  }

  /** No two threads destroy the same object. */
  predicate DifferentVictims(d: Destructor, e: Destructor) {
    !d.NotDestroying? && !e.NotDestroying? ==> d.o != e.o
  }

  ghost predicate Inv(s: System) {
    && (forall o :: o in s.share ==> o < |s.objects|)
    && (forall o :: 0 <= o < |s.objects| ==> ObjectInv(s.objects[o], o in s.share))
    && (forall t :: 0 <= t < |s.threads| ==> ThreadInv(s.threads[t], t, s.objects, s.share, s.mutex))
    && (forall t, t' :: 0 <= t < |s.threads| && 0 <= t' < |s.threads| && t != t' ==>
          DifferentVictims(s.threads[t].dtor, s.threads[t'].dtor))
  }

  // ---------- How a step looks to the other threads ----------

  /** Seen from thread `t`, its own tokens stay, objects without owners stay without, and objects
      being destroyed by others stay as they are. */
  ghost predicate Evolves(before: seq<Object>, after: seq<Object>, t: nat, victim: Destructor) {
    && |before| <= |after|
    && (forall o :: 0 <= o < |before| ==> (OfThread(t) in before[o].owners ==> OfThread(t) in after[o].owners))
    && (forall o :: 0 <= o < |before| ==> (before[o].owners == {} ==> after[o].owners == {}))
    && (forall o: nat :: o < |before| && !victim.NotDestroying? && victim.o == o && before[o].phase == Dying ==>
          after[o].phase == Dying)
  }

  lemma ThreadUndisturbed(th: Thread, t: nat, s: System, r: System)
    requires ThreadInv(th, t, s.objects, s.share, s.mutex)
    requires Evolves(s.objects, r.objects, t, th.dtor)
    requires r.share == s.share || (s.mutex != HeldBy(t) && (th.dtor.Erased? ==> th.dtor.o !in r.share))
    requires r.mutex == HeldBy(t) <==> s.mutex == HeldBy(t)
    ensures ThreadInv(th, t, r.objects, r.share, r.mutex)
  {
  }

  lemma StepEvolves(s: System, a: Action, t: nat)
    requires Inv(s) && Enabled(s, a) && t < |s.threads| && (HasThread(a) ==> t != a.t)
    ensures Evolves(s.objects, Step(s, a).objects, t, s.threads[t].dtor)
  {
    assert ThreadInv(s.threads[t], t, s.objects, s.share, s.mutex);
    if a.DtorFree? {
      assert DifferentVictims(s.threads[t].dtor, s.threads[a.t].dtor);
    } else if a.Drop? || a.Release? || a.StartJoin? || a.Promote? || a.Retain? {
      var o := if a.Release? then HeldObject(s.threads[a.t].task) else a.o;
      assert ObjectInv(s.objects[o], o in s.share);
    }
  }

  lemma OthersUndisturbed(s: System, a: Action, t: nat)
    requires Inv(s) && Enabled(s, a) && t < |s.threads| && (HasThread(a) ==> t != a.t)
    ensures var r := Step(s, a);
      r.threads[t] == s.threads[t] && ThreadInv(r.threads[t], t, r.objects, r.share, r.mutex)
  {
    var r := Step(s, a);
    var th := s.threads[t];
    assert ThreadInv(th, t, s.objects, s.share, s.mutex);
    if HasThread(a) {
      assert ThreadInv(s.threads[a.t], a.t, s.objects, s.share, s.mutex);
      if a.JoinInsert? {
        var o := s.threads[a.t].task.o;
        assert Keeps(s.threads[a.t].task, o);
        assert ObjectInv(s.objects[o], o in s.share);
      }
    }
    StepEvolves(s, a, t);
    hide ThreadInv, Evolves;
    ThreadUndisturbed(th, t, s, r);
  }

  // ---------- The acting thread ----------

  lemma JoinerKeepsInv(s: System, a: Action)
    requires Inv(s) && Enabled(s, a) && (a.StartJoin? || a.JoinLock? || a.JoinInsert?)
    ensures var r := Step(s, a); ThreadInv(r.threads[a.t], a.t, r.objects, r.share, r.mutex)
  {
    var th := s.threads[a.t];
    assert ThreadInv(th, a.t, s.objects, s.share, s.mutex);
    var o := if a.StartJoin? then a.o else th.task.o;
    assert !a.StartJoin? ==> Keeps(th.task, o);
    var r := Step(s, a);
    assert OfThread(a.t) in r.objects[o].owners;
    assert forall x: nat :: Keeps(r.threads[a.t].task, x) ==> x == o;
  }

  lemma CopierKeepsInv(s: System, a: Action)
    requires Inv(s) && Enabled(s, a) && (a.StartExec? || a.ExecLock? || a.ExecCopy? || a.ExecUnlock? || a.ExecEnd?)
    ensures var r := Step(s, a); ThreadInv(r.threads[a.t], a.t, r.objects, r.share, r.mutex)
  {
    assert ThreadInv(s.threads[a.t], a.t, s.objects, s.share, s.mutex);
    if a.ExecUnlock? {
      var task := s.threads[a.t].task;
      assert task.copied == task.locked;
      assert Accounted(Running(task.locked, task.copied, NoHold, [], []));
    }
  }

  lemma PromoterKeepsInv(s: System, t: nat, o: nat)
    requires Inv(s) && Enabled(s, Promote(t, o))
    ensures var r := Step(s, Promote(t, o)); ThreadInv(r.threads[t], t, r.objects, r.share, r.mutex)
  {
    var task := s.threads[t].task;
    assert ThreadInv(s.threads[t], t, s.objects, s.share, s.mutex);
    assert multiset(task.todo) == multiset(task.todo - {o}) + multiset{o};
    var r := Step(s, Promote(t, o));
    assert multiset(InHand(task.hold)) == multiset{};
    assert Accounted(r.threads[t].task);
  }

  lemma ApplierKeepsInv(s: System, t: nat)
    requires Inv(s) && Enabled(s, Apply(t))
    ensures var r := Step(s, Apply(t)); ThreadInv(r.threads[t], t, r.objects, r.share, r.mutex)
  {
    var task := s.threads[t].task;
    assert ThreadInv(s.threads[t], t, s.objects, s.share, s.mutex);
    assert Keeps(task, task.hold.o);
    assert Accounted(Step(s, Apply(t)).threads[t].task);
  }

  /** Dropping a token that the thread's task does not rely on. */
  lemma DropTokenKeepsInv(s: System, t: nat, o: nat, token: Token)
    requires t < |s.threads| && o < |s.objects| && ObjectInv(s.objects[o], o in s.share)
    requires ThreadInv(s.threads[t], t, s.objects, s.share, s.mutex)
    requires s.threads[t].dtor.NotDestroying? && (s.threads[t].task.Idle? || s.threads[t].task.Running?)
    requires token != OfThread(t) || !Keeps(s.threads[t].task, o)
    ensures var r := DropToken(s, t, o, token);
      ThreadInv(r.threads[t], t, r.objects, r.share, r.mutex)
  {
  }

  lemma DropperKeepsInv(s: System, a: Action)
    requires Inv(s) && Enabled(s, a) && (a.Drop? || a.Release?)
    ensures var r := Step(s, a); ThreadInv(r.threads[a.t], a.t, r.objects, r.share, r.mutex)
  {
    assert ThreadInv(s.threads[a.t], a.t, s.objects, s.share, s.mutex);
    if a.Drop? {
      assert ObjectInv(s.objects[a.o], a.o in s.share);
      hide DropToken;
      DropTokenKeepsInv(s, a.t, a.o, External(a.id));
    } else {
      var task := s.threads[a.t].task;
      assert ObjectInv(s.objects[HeldObject(task)], HeldObject(task) in s.share);
      var next := if task.Dropping? then Idle else task.(hold := NoHold);
      var s1 := Goto(s, a.t, next);
      assert ThreadInv(s1.threads[a.t], a.t, s1.objects, s1.share, s1.mutex);
      hide DropToken;
      DropTokenKeepsInv(s1, a.t, HeldObject(task), OfThread(a.t));
    }
  }

  lemma DestroyerKeepsInv(s: System, a: Action)
    requires Inv(s) && Enabled(s, a) && Destroys(a)
    ensures var r := Step(s, a); ThreadInv(r.threads[a.t], a.t, r.objects, r.share, r.mutex)
  {
    assert ThreadInv(s.threads[a.t], a.t, s.objects, s.share, s.mutex);
  }

  lemma ActorKeepsInv(s: System, a: Action)
    requires Inv(s) && Enabled(s, a) && HasThread(a)
    ensures var r := Step(s, a); ThreadInv(r.threads[a.t], a.t, r.objects, r.share, r.mutex)
  {
    hide Inv, ThreadInv, Step;
    match a
    case StartJoin(_, _) => JoinerKeepsInv(s, a);
    case JoinLock(_) => JoinerKeepsInv(s, a);
    case JoinInsert(_) => JoinerKeepsInv(s, a);
    case StartExec(_) => CopierKeepsInv(s, a);
    case ExecLock(_) => CopierKeepsInv(s, a);
    case ExecCopy(_, _) => CopierKeepsInv(s, a);
    case ExecUnlock(_) => CopierKeepsInv(s, a);
    case ExecEnd(_) => CopierKeepsInv(s, a);
    case Promote(t, o) => PromoterKeepsInv(s, t, o);
    case Apply(t) => ApplierKeepsInv(s, t);
    case Drop(_, _, _) => DropperKeepsInv(s, a);
    case Release(_) => DropperKeepsInv(s, a);
    case DtorLock(_) => DestroyerKeepsInv(s, a);
    case DtorErase(_) => DestroyerKeepsInv(s, a);
    case DtorFree(_) => DestroyerKeepsInv(s, a);
  }

  lemma ObjectsKeepInv(s: System, a: Action)
    requires Inv(s) && Enabled(s, a)
    ensures var r := Step(s, a);
      && (forall o :: o in r.share ==> o < |r.objects|)
      && (forall o :: 0 <= o < |r.objects| ==> ObjectInv(r.objects[o], o in r.share))
  {
    if HasThread(a) {
      assert ThreadInv(s.threads[a.t], a.t, s.objects, s.share, s.mutex);
    }
    var r := Step(s, a);
    if a.JoinInsert? {
      assert Keeps(s.threads[a.t].task, s.threads[a.t].task.o);
    }
    forall o | 0 <= o < |r.objects| ensures ObjectInv(r.objects[o], o in r.share) {
      assert o < |s.objects| ==> ObjectInv(s.objects[o], o in s.share);
    }
  }

  lemma VictimsStayDifferent(s: System, a: Action, t: nat, t': nat)
    requires Inv(s) && Enabled(s, a) && t < |s.threads| && t' < |s.threads| && t != t'
    ensures var r := Step(s, a); |r.threads| == |s.threads| && DifferentVictims(r.threads[t].dtor, r.threads[t'].dtor)
  {
    assert DifferentVictims(s.threads[t].dtor, s.threads[t'].dtor);
    assert ThreadInv(s.threads[t], t, s.objects, s.share, s.mutex);
    assert ThreadInv(s.threads[t'], t', s.objects, s.share, s.mutex);
    if HasThread(a) && (a.Drop? || a.Release?) {
      var o := if a.Drop? then a.o else HeldObject(s.threads[a.t].task);
      assert ObjectInv(s.objects[o], o in s.share);
    }
  }

  lemma StepKeepsInv(s: System, a: Action)
    requires Inv(s) && Enabled(s, a)
    ensures Inv(Step(s, a))
  {
    var r := Step(s, a);
    ObjectsKeepInv(s, a);
    if HasThread(a) {
      ActorKeepsInv(s, a);
    }
    hide Step, ThreadInv, ObjectInv;
    forall t | 0 <= t < |r.threads| ensures ThreadInv(r.threads[t], t, r.objects, r.share, r.mutex) {
      if !HasThread(a) || t != a.t {
        OthersUndisturbed(s, a, t);
      }
    }
    forall t, t' | 0 <= t < |r.threads| && 0 <= t' < |r.threads| && t != t'
      ensures DifferentVictims(r.threads[t].dtor, r.threads[t'].dtor)
    {
      VictimsStayDifferent(s, a, t, t');
    }
  }

  lemma {:induction false} RunKeepsInv(s: System, acts: seq<Action>)
    requires Inv(s) && CanRun(s, acts)
    ensures Inv(Run(s, acts))
    decreases |acts|
  {
    hide Inv, Step, Enabled;
    if acts != [] {
      StepKeepsInv(s, acts[0]);
      RunKeepsInv(Step(s, acts[0]), acts[1..]);
    }
  }

  lemma Reachable(n: nat, acts: seq<Action>)
    requires CanRun(Start(n), acts)
    ensures Inv(Run(Start(n), acts))
  {
    RunKeepsInv(Start(n), acts);
  }

  // ---------- Theorems over every interleaving ----------

  /** Every pointer in the shared set denotes an object whose memory has not been released, so the
      copying loop may dereference it; and at most one thread is inside a critical section. */
  lemma SharedPointersAreValid(n: nat, acts: seq<Action>)
    requires CanRun(Start(n), acts)
    ensures var s := Run(Start(n), acts);
      && (forall o :: o in s.share ==> o < |s.objects| && s.objects[o].phase != Freed)
      && (forall t, t' | 0 <= t < |s.threads| && 0 <= t' < |s.threads| ::
            Critical(s.threads[t]) && Critical(s.threads[t']) ==> t == t')
  {
    Reachable(n, acts);
    var s := Run(Start(n), acts);
    hide Run, CanRun;
    forall t | 0 <= t < |s.threads| ensures Critical(s.threads[t]) <==> s.mutex == HeldBy(t) {
      assert ThreadInv(s.threads[t], t, s.objects, s.share, s.mutex);
    }
    forall o | o in s.share ensures o < |s.objects| && s.objects[o].phase != Freed {
      assert ObjectInv(s.objects[o], o in s.share);
    }
  }

  /** A thread that has promoted an object may use it: it is alive, and stays so until the thread
      itself lets go, whatever the other threads do in between. */
  lemma {:induction false} PromotedStaysAlive(s: System, acts: seq<Action>, t: nat)
    requires Inv(s) && CanRun(s, acts) && t < |s.threads|
    requires s.threads[t].task.Running? && s.threads[t].task.hold.Promoted?
    requires forall i :: 0 <= i < |acts| ==> HasThread(acts[i]) ==> acts[i].t != t
    ensures var o := s.threads[t].task.hold.o; var r := Run(s, acts);
      o < |r.objects| && r.objects[o].phase == Alive && OfThread(t) in r.objects[o].owners
    decreases |acts|
  {
    if acts == [] {
      var o := s.threads[t].task.hold.o;
      assert ThreadInv(s.threads[t], t, s.objects, s.share, s.mutex);
      assert Keeps(s.threads[t].task, o);
      assert ObjectInv(s.objects[o], o in s.share);
    } else {
      StepKeepsInv(s, acts[0]);
      OthersUndisturbed(s, acts[0], t);
      hide Inv, Step;
      PromotedStaysAlive(Step(s, acts[0]), acts[1..], t);
    }
  }

  /** An object whose last owner is gone never gets another one. */
  lemma {:induction false} DeadForever(s: System, acts: seq<Action>, o: nat)
    requires CanRun(s, acts) && o < |s.objects| && s.objects[o].owners == {}
    ensures o < |Run(s, acts).objects| && Run(s, acts).objects[o].owners == {}
    decreases |acts|
  {
    if acts != [] {
      var r := Step(s, acts[0]);
      assert o < |r.objects| && r.objects[o].owners == {};
      hide Step, Enabled;
      DeadForever(r, acts[1..], o);
    }
  }

  /** How often `o` occurs in `s`. */
  function Count(s: seq<nat>, o: nat): nat {
    multiset(s)[o]
  }

  /** What one `exec_to_all` has done when it ends: the function was applied exactly once to every
      member of the set as it was under the lock, except to those whose reference count had reached
      zero, to which it was not applied; and to nothing that joined later. */
  lemma ExecAppliesExactlyOnce(n: nat, acts: seq<Action>, t: nat)
    requires CanRun(Start(n), acts) && Enabled(Run(Start(n), acts), ExecEnd(t))
    ensures var s := Run(Start(n), acts); var task := s.threads[t].task;
      forall o: nat :: Count(task.applied, o) ==
        (if o !in task.locked then 0
         else if Count(task.skipped, o) > 0 then 0
         else 1)
    ensures var s := Run(Start(n), acts); var task := s.threads[t].task;
      forall o: nat :: Count(task.skipped, o) > 0 ==> o in task.locked && o < |s.objects| && s.objects[o].owners == {}
  {
    Reachable(n, acts);
    var s := Run(Start(n), acts);
    var task := s.threads[t].task;
    hide Run, CanRun;
    assert ThreadInv(s.threads[t], t, s.objects, s.share, s.mutex);
    assert multiset(task.applied) + multiset(task.skipped) == multiset(task.locked);
    forall o: nat
      ensures Count(task.applied, o) + Count(task.skipped, o) == if o in task.locked then 1 else 0
      ensures Count(task.skipped, o) > 0 ==> o < |s.objects| && s.objects[o].owners == {}
    {
      assert (multiset(task.applied) + multiset(task.skipped))[o] == multiset(task.locked)[o];
      if Count(task.skipped, o) > 0 {
        assert o in task.skipped;
      }
    }
  }

  /** The set cannot change while it is being copied: the copy is the set under the lock. */
  lemma CopyIsTheLockedSet(n: nat, acts: seq<Action>, t: nat)
    requires CanRun(Start(n), acts) && Enabled(Run(Start(n), acts), ExecUnlock(t))
    ensures var s := Run(Start(n), acts);
      s.threads[t].task.copied == s.threads[t].task.locked == s.share
  {
    Reachable(n, acts);
    var s := Run(Start(n), acts);
    hide Run, CanRun;
    assert ThreadInv(s.threads[t], t, s.objects, s.share, s.mutex);
  }
}
