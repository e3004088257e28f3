/**
 What `join`, `exec_to_all` and dropping a reference come to, told by the steps alone: who is in the
 shared set, who holds what, to whom a function is applied, and what is left when all threads rest.
 */
module ShareLedger {
  import opened StaticShare
  import ShareProgress

  // ---------- Who is a member ----------

  /** The objects that some join has inserted, whatever became of them. */
  function EverJoined(joining: map<nat, nat>, ever: set<nat>, acts: seq<Action>): set<nat>
    decreases |acts|
  {
    if acts == [] then ever
    else
      match acts[0]
      case StartJoin(t, o) => EverJoined(joining[t := o], ever, acts[1..])
      case JoinInsert(t) =>
        EverJoined(joining, if t in joining then ever + {joining[t]} else ever, acts[1..])
      case _ => EverJoined(joining, ever, acts[1..])
  }

  predicate Known(s: System, joining: map<nat, nat>) {
    forall t :: 0 <= t < |s.threads| && (s.threads[t].task.JoinWaits? || s.threads[t].task.JoinLocked?) ==>
      t in joining && joining[t] == s.threads[t].task.o
  }

  /** The object's destructor has erased it from the set. */
  ghost predicate HasLeft(s: System, o: nat)
    requires o < |s.objects|
  {
    s.objects[o].phase == Freed || exists t :: 0 <= t < |s.threads| && s.threads[t].dtor == Erased(o)
  }

  /** Whoever has joined is a member until its destructor erases it, and nobody else is a member. */
  ghost predicate Kept(s: System, ever: set<nat>) {
    && s.share <= ever
    && forall o :: o in ever ==> o < |s.objects| && (o in s.share || HasLeft(s, o))
  }

  /** What one step does to the two records. */
  function Joining(joining: map<nat, nat>, a: Action): map<nat, nat> {
    if a.StartJoin? then joining[a.t := a.o] else joining
  }

  function Ever(joining: map<nat, nat>, ever: set<nat>, a: Action): set<nat> {
    if a.JoinInsert? && a.t in joining then ever + {joining[a.t]} else ever
  }

  lemma StepKnows(s: System, joining: map<nat, nat>, a: Action)
    requires Enabled(s, a) && Known(s, joining)
    ensures Known(Step(s, a), Joining(joining, a))
  {
  }

  /** Having left is for ever. */
  lemma StaysAway(s: System, a: Action, o: nat)
    requires Inv(s) && Enabled(s, a) && o < |s.objects| && HasLeft(s, o)
    ensures HasLeft(Step(s, a), o)
  {
    var r := Step(s, a);
    assert ObjectInv(s.objects[o], o in s.share);
    if s.objects[o].phase != Freed {
      var t :| 0 <= t < |s.threads| && s.threads[t].dtor == Erased(o);
      assert ThreadInv(s.threads[t], t, s.objects, s.share, s.mutex);
      if HasThread(a) && a.t == t {
        assert a.DtorFree?;
      } else {
        OthersUndisturbed(s, a, t);
        assert r.threads[t].dtor == Erased(o);
      }
    }
  }

  lemma StepKeeps(s: System, joining: map<nat, nat>, ever: set<nat>, a: Action)
    requires Inv(s) && Enabled(s, a) && Known(s, joining) && Kept(s, ever)
    ensures Kept(Step(s, a), Ever(joining, ever, a))
  {
    if HasThread(a) {
      assert ThreadInv(s.threads[a.t], a.t, s.objects, s.share, s.mutex);
    }
    if a.JoinInsert? {
      assert Keeps(s.threads[a.t].task, joining[a.t]);
    }
    var r, ever' := Step(s, a), Ever(joining, ever, a);
    forall o | o in ever' ensures o < |r.objects| && (o in r.share || HasLeft(r, o)) {
      if o in ever && HasLeft(s, o) {
        StaysAway(s, a, o);
      } else if a.DtorErase? && o == s.threads[a.t].dtor.o {
        assert r.threads[a.t].dtor == Erased(o);
      }
    }
  }

  lemma {:induction false} RunKeeps(s: System, joining: map<nat, nat>, ever: set<nat>, acts: seq<Action>)
    requires Inv(s) && CanRun(s, acts) && Known(s, joining) && Kept(s, ever)
    ensures Kept(Run(s, acts), EverJoined(joining, ever, acts))
    decreases |acts|
  {
    hide Inv, Step, Enabled, Known, Kept;
    if acts != [] {
      StepKeepsInv(s, acts[0]);
      StepKnows(s, joining, acts[0]);
      StepKeeps(s, joining, ever, acts[0]);
      RunKeeps(Step(s, acts[0]), Joining(joining, acts[0]), Ever(joining, ever, acts[0]), acts[1..]);
    }
  }

  /** In every run the members are exactly the objects that a join has inserted and that their destructor
      has not yet erased; so one that has joined is a member as long as it has an owner. */
  lemma MembersAreTheJoined(n: nat, acts: seq<Action>, o: nat)
    requires CanRun(Start(n), acts)
    ensures var s, ever := Run(Start(n), acts), EverJoined(map[], {}, acts);
      && (o in s.share <==> o in ever && o < |s.objects| && !HasLeft(s, o))
      && (o in ever ==> o < |s.objects| && (s.objects[o].owners != {} ==> o in s.share))
  {
    Reachable(n, acts);
    RunKeeps(Start(n), map[], {}, acts);
    var s := Run(Start(n), acts);
    hide Run, CanRun, EverJoined;
    if o < |s.objects| {
      assert ObjectInv(s.objects[o], o in s.share);
      if t :| 0 <= t < |s.threads| && s.threads[t].dtor == Erased(o) {
        assert ThreadInv(s.threads[t], t, s.objects, s.share, s.mutex);
      }
    }
  }

  // ---------- Who is reached ----------

  /** The set that an `exec_to_all` has locked stays what it is until the call ends. */
  predicate HasLocked(s: System, t: nat, locked: set<nat>) {
    t < |s.threads| && (s.threads[t].task.Copying? || s.threads[t].task.Running?)
    && s.threads[t].task.locked == locked
  }

  lemma {:induction false} LockedStays(s: System, acts: seq<Action>, t: nat, locked: set<nat>)
    requires CanRun(s, acts) && HasLocked(s, t, locked) && ExecEnd(t) !in acts
    ensures HasLocked(Run(s, acts), t, locked)
    decreases |acts|
  {
    if acts != [] {
      assert HasLocked(Step(s, acts[0]), t, locked) by {
        assert acts[0] in acts;
      }
      hide Step, Enabled, HasLocked;
      LockedStays(Step(s, acts[0]), acts[1..], t, locked);
    }
  }

  /** What is missing at the end was missing before: owners never come back. */
  lemma OwnedBefore(s: System, acts: seq<Action>, o: nat)
    requires CanRun(s, acts) && o < |s.objects| && o < |Run(s, acts).objects|
    requires Run(s, acts).objects[o].owners != {}
    ensures s.objects[o].owners != {}
  {
    hide Run, CanRun;
    if s.objects[o].owners == {} {
      DeadForever(s, acts, o);
    }
  }

  lemma {:induction false} RunConcat(s: System, a: seq<Action>, b: seq<Action>)
    requires CanRun(s, a) && CanRun(Run(s, a), b)
    ensures CanRun(s, a + b) && Run(s, a + b) == Run(Run(s, a), b)
    decreases |a|
  {
    hide Step, Enabled;
    if a == [] {
      assert a + b == b;
    } else {
      RunConcat(Step(s, a[0]), a[1..], b);
      assert (a + b)[1..] == a[1..] + b;
    }
  }

  /** End to end, under any interleaving: an object whose join was done before a call of `exec_to_all`
      took the lock, and that still has an owner when the call ends, has had the function applied to it
      exactly once. */
  lemma JoinedIsApplied(n: nat, before: seq<Action>, during: seq<Action>, t: nat, o: nat)
    requires CanRun(Start(n), before) && Enabled(Run(Start(n), before), ExecLock(t))
    requires var s := Step(Run(Start(n), before), ExecLock(t));
      CanRun(s, during) && ExecEnd(t) !in during && Enabled(Run(s, during), ExecEnd(t))
    requires o in EverJoined(map[], {}, before)
    requires var r := Run(Step(Run(Start(n), before), ExecLock(t)), during);
      o < |r.objects| && r.objects[o].owners != {}
    ensures var r := Run(Step(Run(Start(n), before), ExecLock(t)), during);
      Count(r.threads[t].task.applied, o) == 1
  {
    var s := Run(Start(n), before);
    var s1 := Step(s, ExecLock(t));
    var r := Run(s1, during);
    MembersAreTheJoined(n, before, o);
    OwnedBefore(s1, during, o);
    assert o in s.share;
    LockedStays(s1, during, t, s.share);
    assert CanRun(s, [ExecLock(t)] + during) && Run(s, [ExecLock(t)] + during) == r by {
      assert ([ExecLock(t)] + during)[1..] == during;
    }
    RunConcat(Start(n), before, [ExecLock(t)] + during);
    hide Run, CanRun, Step, EverJoined;
    ExecAppliesExactlyOnce(n, before + ([ExecLock(t)] + during), t);
  }

  // ---------- Who holds what ----------

  /** The handles outside the threads: what was created or copied and has not been dropped. */
  function Handles(created: nat, held: set<(nat, nat)>, acts: seq<Action>): set<(nat, nat)>
    decreases |acts|
  {
    if acts == [] then held
    else
      match acts[0]
      case Create => Handles(created + 1, held + {(created, 0)}, acts[1..])
      case Retain(o, id) => Handles(created, held + {(o, id)}, acts[1..])
      case Drop(_, o, id) => Handles(created, held - {(o, id)}, acts[1..])
      case _ => Handles(created, held, acts[1..])
  }

  function Held(created: nat, held: set<(nat, nat)>, a: Action): set<(nat, nat)> {
    match a
    case Create => held + {(created, 0)}
    case Retain(o, id) => held + {(o, id)}
    case Drop(_, o, id) => held - {(o, id)}
    case _ => held
  }

  /** An object is owned by its handles and by the threads that keep it, and by nothing else; and one
      that is being destroyed is so by some thread. */
  ghost predicate Owned(s: System, held: set<(nat, nat)>) {
    && (forall o: nat, id: nat :: (o, id) in held <==> o < |s.objects| && External(id) in s.objects[o].owners)
    && (forall o: nat, t: nat :: o < |s.objects| && OfThread(t) in s.objects[o].owners ==>
          t < |s.threads| && Keeps(s.threads[t].task, o))
    && (forall o: nat :: o < |s.objects| && s.objects[o].phase == Dying ==> BeingDestroyed(s, o))
  }

  ghost predicate BeingDestroyed(s: System, o: nat) {
    exists t :: 0 <= t < |s.threads| && !s.threads[t].dtor.NotDestroying? && s.threads[t].dtor.o == o
  }

  lemma HandlesOwn(s: System, held: set<(nat, nat)>, a: Action, o: nat, id: nat)
    requires Enabled(s, a) && Owned(s, held)
    ensures var r := Step(s, a);
      (o, id) in Held(|s.objects|, held, a) <==> o < |r.objects| && External(id) in r.objects[o].owners
  {
    assert (o, id) in held <==> o < |s.objects| && External(id) in s.objects[o].owners;
  }

  lemma KeepersOwn(s: System, held: set<(nat, nat)>, a: Action, o: nat, t: nat)
    requires Inv(s) && Enabled(s, a) && Owned(s, held)
    requires var r := Step(s, a); o < |r.objects| && OfThread(t) in r.objects[o].owners
    ensures var r := Step(s, a); t < |r.threads| && Keeps(r.threads[t].task, o)
  {
    if HasThread(a) {
      assert ThreadInv(s.threads[a.t], a.t, s.objects, s.share, s.mutex);
    }
    if o < |s.objects| && OfThread(t) in s.objects[o].owners {
      assert t < |s.threads| && Keeps(s.threads[t].task, o);
    }
  }

  lemma SomebodyDestroys(s: System, held: set<(nat, nat)>, a: Action, o: nat)
    requires Enabled(s, a) && Owned(s, held)
    requires o < |Step(s, a).objects| && Step(s, a).objects[o].phase == Dying
    ensures BeingDestroyed(Step(s, a), o)
  {
    if o < |s.objects| && s.objects[o].phase == Dying {
      assert BeingDestroyed(s, o);
      StillDestroyed(s, a, o);
    } else {
      assert a.Drop? || a.Release?;
      assert Step(s, a).threads[a.t].dtor == Waits(o);
    }
  }

  lemma StillDestroyed(s: System, a: Action, o: nat)
    requires Enabled(s, a) && o < |s.objects| && BeingDestroyed(s, o) && Step(s, a).objects[o].phase == Dying
    ensures BeingDestroyed(Step(s, a), o)
  {
    var t :| 0 <= t < |s.threads| && !s.threads[t].dtor.NotDestroying? && s.threads[t].dtor.o == o;
    var d := Step(s, a).threads[t].dtor;
    assert !d.NotDestroying? && d.o == o;
  }

  lemma StepOwns(s: System, held: set<(nat, nat)>, a: Action)
    requires Inv(s) && Enabled(s, a) && Owned(s, held)
    ensures Owned(Step(s, a), Held(|s.objects|, held, a))
    ensures |Step(s, a).objects| == |s.objects| + (if a.Create? then 1 else 0)
  {
    var r, held' := Step(s, a), Held(|s.objects|, held, a);
    assert |r.objects| == |s.objects| + (if a.Create? then 1 else 0);
    hide Inv, Owned, Step, Enabled, Keeps, BeingDestroyed;
    forall o: nat, id: nat
      ensures (o, id) in held' <==> o < |r.objects| && External(id) in r.objects[o].owners
    {
      HandlesOwn(s, held, a, o, id);
    }
    forall o: nat, t: nat | o < |r.objects| && OfThread(t) in r.objects[o].owners
      ensures t < |r.threads| && Keeps(r.threads[t].task, o)
    {
      KeepersOwn(s, held, a, o, t);
    }
    forall o: nat | o < |r.objects| && r.objects[o].phase == Dying ensures BeingDestroyed(r, o) {
      SomebodyDestroys(s, held, a, o);
    }
    assert Owned(r, held');
  }

  lemma {:induction false} RunOwns(s: System, held: set<(nat, nat)>, acts: seq<Action>)
    requires Inv(s) && CanRun(s, acts) && Owned(s, held)
    ensures Owned(Run(s, acts), Handles(|s.objects|, held, acts))
    decreases |acts|
  {
    hide Inv, Step, Enabled, Owned;
    if acts != [] {
      StepKeepsInv(s, acts[0]);
      StepOwns(s, held, acts[0]);
      RunOwns(Step(s, acts[0]), Held(|s.objects|, held, acts[0]), acts[1..]);
    }
  }

  /** Nothing leaks and nothing goes too early: when all threads rest, the objects that live are those
      with a handle, the others have been destroyed, and the members are the living objects that a join
      has inserted. */
  lemma NothingLeaks(n: nat, acts: seq<Action>, o: nat)
    requires CanRun(Start(n), acts) && ShareProgress.AllRest(Run(Start(n), acts))
    requires o < |Run(Start(n), acts).objects|
    ensures var s, held := Run(Start(n), acts), Handles(0, {}, acts);
      && s.objects[o].phase == (if exists id: nat :: (o, id) in held then Alive else Freed)
      && (o in s.share <==> o in EverJoined(map[], {}, acts) && exists id: nat :: (o, id) in held)
  {
    Reachable(n, acts);
    RunOwns(Start(n), {}, acts);
    MembersAreTheJoined(n, acts, o);
    var s, held := Run(Start(n), acts), Handles(0, {}, acts);
    hide Run, CanRun, EverJoined, Handles;
    assert ObjectInv(s.objects[o], o in s.share);
    OwnersAreHandles(s, held, o);
    assert s.objects[o].phase != Dying by {
      assert !BeingDestroyed(s, o);
    }
  }

  lemma OwnersAreHandles(s: System, held: set<(nat, nat)>, o: nat)
    requires Owned(s, held) && ShareProgress.AllRest(s) && o < |s.objects|
    ensures s.objects[o].owners != {} <==> exists id: nat :: (o, id) in held
  {
    if s.objects[o].owners != {} {
      var x :| x in s.objects[o].owners;
      assert forall t: nat :: t < |s.threads| ==> !Keeps(s.threads[t].task, o);
      assert (o, x.id) in held;
    }
  }
}
