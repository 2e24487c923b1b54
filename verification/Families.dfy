/** The join discipline over every run of the machine: tasks may wait for anything, resolve
    futures of their own, use events and be notified by any thread. If no worker exits or
    throws, and each returns only after it has awaited all the tasks it spawned, then main is
    the last to end, and `MainTaskExitedException` is never thrown. */
module Families {
  import opened Options
  import opened LoopModel
  import opened FutureModel
  import opened Machine
  import opened Order
  import opened WakeTokens
  import opened Futures
  import opened Runs
  import opened Ownership

  /** The runtime, and who spawned whom. */
  datatype Family = Family(w: World, parent: map<TaskId, TaskId>)

  /** `f` is the future of a task made by `task()`. */
  predicate IsTaskFuture(w: World, f: FutureId) {
    exists c :: c in w.wrapped && w.wrapped[c] == f
  }

  /** `p` has awaited the future of `c`, and got a value. */
  ghost predicate Awaited(w: World, p: TaskId, c: TaskId) {
    c in w.wrapped && exists v :: AwaitRecord(p, w.wrapped[c], Returned(v)) in w.hist.awaits
  }

  /** A task may be bound to its own future, to those of its children, and to any that is not a
      task's. Main may be bound to any: `run<T>(task)` binds it to its child's. */
  ghost predicate MayRefer(s: Family, t: TaskId, f: FutureId) {
    forall c :: c in s.w.wrapped && s.w.wrapped[c] == f ==>
      c == t || t == s.w.hist.base || (c in s.parent && s.parent[c] == t)
  }

  /** The discipline: no exit and no exception, every task has a future that only its worker
      resolves, and a worker returns only when it has awaited all its children. */
  ghost predicate KeepsDiscipline(s: Family, a: Act)
    requires Allowed(s.w, a)
  {
    match a
    case Exit => false
    case Throw => false
    case Spawn(wraps) => wraps
    case Complete(f, v) => !IsTaskFuture(s.w, f)
    case Cancel(f) => !IsTaskFuture(s.w, f)
    case Bind(f) => MayRefer(s, Self(s.w).id, f)
    case Return(v) => forall c :: c in s.parent && s.parent[c] == Self(s.w).id ==> Awaited(s.w, Self(s.w).id, c)
    case _ => true
  }

  ghost predicate CanDo(s: Family, a: Act) {
    Allowed(s.w, a) && KeepsDiscipline(s, a)
  }

  function Do(s: Family, a: Act): Family
    requires Allowed(s.w, a)
  {
    Family(Step(s.w, a), if a.Spawn? then s.parent[s.w.loop.nextId := Self(s.w).id] else s.parent)
  }

  // ------------------------------------------------------- the invariant

  /** A child's future is completed exactly when the child has ended, and it ends before its parent. */
  ghost predicate ChildOk(s: Family, c: TaskId) {
    c in s.w.wrapped ==>
      && s.w.hist.base < c < s.w.loop.nextId && s.w.wrapped[c] < |s.w.futures|
      && c in s.parent && s.w.hist.base <= s.parent[c] < c
      && (if c in s.w.hist.ended
          then s.w.futures[s.w.wrapped[c]].completed && !s.w.futures[s.w.wrapped[c]].cancelled
          else !s.w.futures[s.w.wrapped[c]].Resolved())
      && (s.parent[c] in s.w.hist.ended ==> c in s.w.hist.ended)
  }

  ghost predicate OneFutureEach(w: World) {
    forall c, d :: c in w.wrapped && d in w.wrapped && c != d ==> w.wrapped[c] != w.wrapped[d]
  }

  ghost predicate RefersOk(s: Family) {
    forall i :: 0 <= i < |All(s.w)| && All(s.w)[i].result.Some? ==>
      MayRefer(s, All(s.w)[i].id, All(s.w)[i].result.value)
  }

  ghost predicate TreeInv(s: Family) {
    && s.w.loop.mainId == s.w.hist.base
    && s.parent.Keys == s.w.wrapped.Keys
    && (forall c :: s.w.hist.base < c < s.w.loop.nextId ==> c in s.w.wrapped)
    && OneFutureEach(s.w) && RefersOk(s)
    && (forall c :: ChildOk(s, c))
  }

  ghost predicate FamilyInv(s: Family) {
    Inv(s.w) && EndInv(s.w) && RefInv(s.w) && TreeInv(s)
  }

  lemma FamilyBegins(w: World)
    requires Initial(w)
    ensures FamilyInv(Family(w, map[]))
  {
    OrderInitially(w);
    TokensInitially(w);
    FuturesInitially(w);
    EndInitially(w);
  }

  /** While any task is unfinished, so is main. */
  lemma {:induction false} EndsBeforeMain(s: Family, c: TaskId)
    requires TreeInv(s) && c in s.w.wrapped && s.w.hist.base in s.w.hist.ended
    ensures c in s.w.hist.ended
    decreases c - s.w.hist.base
  {
    assert ChildOk(s, c);
    if s.parent[c] != s.w.hist.base {
      EndsBeforeMain(s, s.parent[c]);
    }
  }

  // ------------------------------------------------------- steps that touch no family

  ghost predicate SameFates(w: World, u: World) {
    |w.futures| <= |u.futures| && forall c :: c in w.wrapped && w.wrapped[c] < |w.futures| ==>
      var f := w.wrapped[c];
      u.futures[f].completed == w.futures[f].completed && u.futures[f].cancelled == w.futures[f].cancelled
  }

  /** Nobody spawned, ended or bound; one task may have left the list. */
  ghost predicate SameFamily(w: World, u: World) {
    && (SameNames(w, u) || Erased(w, u))
    && u.hist.ended == w.hist.ended && u.loop.mainId == w.loop.mainId
    && SameFates(w, u)
  }

  lemma RefersSame(s: Family, u: World)
    requires RefersOk(s) && (SameNames(s.w, u) || Erased(s.w, u))
    ensures RefersOk(s.(w := u))
  {
    if !SameNames(s.w, u) { ErasedAt(s.w, u); }
    forall i | 0 <= i < |All(u)| && All(u)[i].result.Some?
      ensures MayRefer(s.(w := u), All(u)[i].id, All(u)[i].result.value)
    {
      var k := if SameNames(s.w, u) || i < s.w.loop.current then i else i + 1;
      assert All(u)[i].id == All(s.w)[k].id && All(u)[i].result == All(s.w)[k].result;
      assert MayRefer(s, All(s.w)[k].id, All(s.w)[k].result.value);
    }
  }

  lemma TreeSame(s: Family, u: World)
    requires TreeInv(s) && SameFamily(s.w, u)
    ensures TreeInv(s.(w := u))
  {
    RefersSame(s, u);
    forall c ensures ChildOk(s.(w := u), c) { assert ChildOk(s, c); }
  }

  lemma SameFlagsSameFates(w: World, u: World)
    requires SameFlags(w, u)
    ensures SameFates(w, u)
  {}

  lemma LeavingEndsNone(w: World, a: Act)
    requires Allowed(w, a) && GivesBack(a) && !a.Return? && !a.Exit? && !a.Throw?
    ensures Step(w, a).hist.ended == w.hist.ended
  {}

  /** A step in a slice that resolves, spawns, binds and ends nothing. */
  lemma IdleFamily(w: World, a: Act)
    requires Allowed(w, a) && !Resolves(a) && !a.Spawn? && !a.Bind? && !a.Exit? && !a.Throw?
    ensures SameFamily(w, Step(w, a))
  {
    OthersKeepNames(w, a);
    if GivesBack(a) { LeavingEndsNone(w, a); } else { OthersEndNone(w, a); }
    StepKeepsBase(w, a);
    OthersKeepFlags(w, a);
    SameFlagsSameFates(w, Step(w, a));
  }

  /** Resolving a future that is not a task's. */
  lemma ResolvingFamily(w: World, a: Act)
    requires Allowed(w, a) && (a.Complete? || a.Cancel?) && !IsTaskFuture(w, a.f)
    ensures SameFamily(w, Step(w, a))
  {
    OthersKeepNames(w, a);
    OthersEndNone(w, a);
    StepKeepsBase(w, a);
    assert forall f :: 0 <= f < |w.futures| && f != a.f ==> Step(w, a).futures[f] == w.futures[f];
  }

  // ------------------------------------------------------- cycles

  lemma DrainFamily(w: World)
    requires Inv(w) && Allowed(w, Cycle)
    ensures WakesOnlyWaiting(w) && Selecting(Drain(w)) && SameFamily(w, Drain(w))
  {
    CycleKeepsNames(w);
  }

  lemma SelectFamily(w: World)
    requires Selecting(w) && Self(w).status != Done
    ensures SameFamily(w, Dispatch(w))
  {
    DispatchKeepsNames(w);
    DispatchKeepsBase(w);
    FlagsSelect(w);
    SameFlagsSameFates(w, Dispatch(w));
  }

  /** When a task is cleaned up its children have ended, so `cleanUpTask` cancels no task's future. */
  lemma CancelsNoTask(s: Family, c: TaskId)
    requires TreeInv(s) && EndInv(s.w) && Selecting(s.w) && Self(s.w).status == Done && Cancels(s.w)
    requires c in s.w.wrapped
    ensures s.w.wrapped[c] != Self(s.w).result.value
  {
    var me := Self(s.w);
    assert All(s.w)[s.w.loop.current] == me;
    assert me.id in s.w.hist.ended;
    if s.w.wrapped[c] == me.result.value {
      assert MayRefer(s, me.id, me.result.value);
      assert ChildOk(s, c);
      if me.id == s.w.hist.base { EndsBeforeMain(s, c); }
    }
  }

  lemma CleanUpFamily(s: Family)
    requires TreeInv(s) && EndInv(s.w) && Selecting(s.w) && Self(s.w).status == Done
    ensures CleanUp(s.w).phase.Orphaned? || SameFamily(s.w, CleanUp(s.w))
  {
    var u := CleanUp(s.w);
    if !u.phase.Orphaned? {
      CleanUpIsErased(s.w);
      CleanUpKeepsBase(s.w);
      CleanUpFlags(s.w);
      if Cancels(s.w) {
        forall c | c in s.w.wrapped ensures s.w.wrapped[c] != Self(s.w).result.value { CancelsNoTask(s, c); }
      }
    }
  }

  lemma InSpan(w: World, i: nat)
    requires OrderInv(w) && i < |All(w)|
    ensures w.hist.base <= All(w)[i].id < w.loop.nextId
  {}

  /** Main is cleaned up only when no task is left unfinished. */
  lemma NoOrphans(s: Family)
    requires TreeInv(s) && OrderInv(s.w) && EndInv(s.w) && Selecting(s.w) && Self(s.w).status == Done
    ensures !CleanUp(s.w).phase.Orphaned?
  {
    var w := s.w;
    NothingPending(w);
    assert All(w)[w.loop.current] == Self(w);
    if ChecksOrphans(w.loop, Self(w).id) {
      forall i | 0 <= i < |w.loop.tasks| ensures w.loop.tasks[i].status == Done {
        assert All(w)[i] == w.loop.tasks[i];
        InSpan(w, i);
        if All(w)[i].id != w.hist.base { EndsBeforeMain(s, All(w)[i].id); }
      }
    }
  }

  lemma SelectIsNoOrphan(w: World)
    requires Selecting(w) && Self(w).status != Done
    ensures !Dispatch(w).phase.Orphaned?
  {}

  lemma FamilyCycle(s: Family)
    requires FamilyInv(s) && Allowed(s.w, Cycle)
    ensures TreeInv(s.(w := DoCycle(s.w))) && !DoCycle(s.w).phase.Orphaned?
  {
    DrainFamily(s.w);
    EndDrain(s.w);
    var d := s.(w := Drain(s.w));
    TreeSame(s, d.w);
    if Self(d.w).status == Done {
      NoOrphans(d);
      CleanUpFamily(d);
    } else {
      SelectFamily(d.w);
      SelectIsNoOrphan(d.w);
    }
    TreeSame(d, DoCycle(s.w));
  }

  // ------------------------------------------------------- steps that change a family

  lemma FamilySpawn(s: Family)
    requires FamilyInv(s) && Allowed(s.w, Spawn(true))
    ensures TreeInv(Do(s, Spawn(true)))
  {
    var n, w := Do(s, Spawn(true)), s.w;
    ExecutingHasNotEnded(w);
    assert All(n.w) == All(w) + [Task(w.loop.nextId, Init, Some(|w.futures|))];
    assert forall c :: c in w.wrapped ==> w.wrapped[c] < |w.futures| && c < w.loop.nextId;
    forall c ensures ChildOk(n, c) { assert ChildOk(s, c); }
    forall i | 0 <= i < |All(n.w)| && All(n.w)[i].result.Some?
      ensures MayRefer(n, All(n.w)[i].id, All(n.w)[i].result.value)
    {
      if i < |All(w)| { assert MayRefer(s, All(w)[i].id, All(w)[i].result.value); }
    }
  }

  lemma FamilyBind(s: Family, f: FutureId)
    requires TreeInv(s) && CanDo(s, Bind(f))
    ensures TreeInv(Do(s, Bind(f)))
  {
    var n, w := Do(s, Bind(f)), s.w;
    assert All(n.w) == All(w)[w.loop.current := Self(w).(result := Some(f))];
    forall c ensures ChildOk(n, c) { assert ChildOk(s, c); }
    forall i | 0 <= i < |All(n.w)| && All(n.w)[i].result.Some?
      ensures MayRefer(n, All(n.w)[i].id, All(n.w)[i].result.value)
    {
      if i != w.loop.current { assert MayRefer(s, All(w)[i].id, All(w)[i].result.value); }
    }
  }

  /** Who was awaited has ended. */
  lemma AwaitedHasEnded(s: Family, p: TaskId, c: TaskId)
    requires TreeInv(s) && FutureInv(s.w) && Awaited(s.w, p, c)
    ensures c in s.w.hist.ended
  {
    var v :| AwaitRecord(p, s.w.wrapped[c], Returned(v)) in s.w.hist.awaits;
    var k :| 0 <= k < |s.w.hist.awaits| && s.w.hist.awaits[k] == AwaitRecord(p, s.w.wrapped[c], Returned(v));
    assert RecordOk(s.w, s.w.hist.awaits[k]);
    assert ChildOk(s, c);
  }

  lemma ReturnFates(s: Family, v: Value, c: TaskId)
    requires TreeInv(s) && FutureInv(s.w) && CanDo(s, Return(v))
    ensures ChildOk(Do(s, Return(v)), c)
  {
    assert ChildOk(s, c);
    var me := Self(s.w).id;
    if c in s.w.wrapped && s.parent[c] == me { AwaitedHasEnded(s, me, c); }
    if me in s.w.wrapped { assert ChildOk(s, me); }
  }

  lemma FamilyReturn(s: Family, v: Value)
    requires TreeInv(s) && FutureInv(s.w) && CanDo(s, Return(v))
    ensures TreeInv(Do(s, Return(v)))
  {
    OthersKeepNames(s.w, Return(v));
    RefersSame(s, Step(s.w, Return(v)));
    StepKeepsBase(s.w, Return(v));
    forall c ensures ChildOk(Do(s, Return(v)), c) { ReturnFates(s, v, c); }
  }

  // ------------------------------------------------------- every step, every run

  lemma TreeStep(s: Family, a: Act)
    requires FamilyInv(s) && CanDo(s, a)
    ensures TreeInv(Do(s, a))
  {
    if a.Cycle? {
      FamilyCycle(s);
    } else if a.Spawn? {
      FamilySpawn(s);
    } else if a.Bind? {
      FamilyBind(s, a.f);
    } else if a.Return? {
      FamilyReturn(s, a.v);
    } else if a.Complete? || a.Cancel? {
      ResolvingFamily(s.w, a);
      TreeSame(s, Step(s.w, a));
    } else {
      IdleFamily(s.w, a);
      TreeSame(s, Step(s.w, a));
    }
  }

  lemma SliceDoesNotOrphan(w: World, a: Act)
    requires Allowed(w, a) && !a.Cycle? && !w.phase.Orphaned?
    ensures !Step(w, a).phase.Orphaned?
  {
    if GivesBack(a) { GivingBackLeaves(w, a); } else if !a.Spawn? { OthersAreQuiet(w, a); }
  }

  lemma FamilyStep(s: Family, a: Act)
    requires FamilyInv(s) && CanDo(s, a)
    ensures FamilyInv(Do(s, a)) && (!s.w.phase.Orphaned? ==> !Do(s, a).w.phase.Orphaned?)
  {
    StepKeepsInv(s.w, a);
    EndStep(s.w, a);
    TreeStep(s, a);
    if a.Cycle? { FamilyCycle(s); } else if !s.w.phase.Orphaned? { SliceDoesNotOrphan(s.w, a); }
  }

  ghost predicate CanDoAll(s: Family, acts: seq<Act>)
    decreases |acts|
  {
    acts == [] || (CanDo(s, acts[0]) && CanDoAll(Do(s, acts[0]), acts[1..]))
  }

  ghost function DoAll(s: Family, acts: seq<Act>): Family
    requires CanDoAll(s, acts)
    decreases |acts|
  {
    if acts == [] then s else DoAll(Do(s, acts[0]), acts[1..])
  }

  lemma {:induction false} FamilyRun(s: Family, acts: seq<Act>)
    requires FamilyInv(s) && CanDoAll(s, acts) && !s.w.phase.Orphaned?
    ensures FamilyInv(DoAll(s, acts)) && !DoAll(s, acts).w.phase.Orphaned?
    ensures AllowedRun(s.w, acts) && Run(s.w, acts) == DoAll(s, acts).w
    decreases |acts|
  {
    if acts != [] {
      FamilyStep(s, acts[0]);
      FamilyRun(Do(s, acts[0]), acts[1..]);
    }
  }

  /** The join discipline. In every run that keeps it, whatever else its tasks and foreign threads do:
      main is the last task to end, `MainTaskExitedException` is never thrown, and once main has
      ended every task has returned and its future is completed. */
  lemma JoinedRunsOrphanNobody(w: World, acts: seq<Act>)
    requires Initial(w) && CanDoAll(Family(w, map[]), acts)
    ensures AllowedRun(w, acts)
    ensures var u := Run(w, acts);
      && !u.phase.Orphaned?
      && (u.hist.base in u.hist.ended ==> forall t :: Spawned(u, t) ==> t in u.hist.ended)
      && (u.hist.base in u.hist.ended ==> forall t :: t in u.wrapped ==>
           u.wrapped[t] < |u.futures| && u.futures[u.wrapped[t]].completed && !u.futures[u.wrapped[t]].cancelled)
  {
    FamilyBegins(w);
    FamilyRun(Family(w, map[]), acts);
    var s := DoAll(Family(w, map[]), acts);
    if s.w.hist.base in s.w.hist.ended {
      forall t | t in s.w.wrapped
        ensures t in s.w.hist.ended && ChildOk(s, t)
      {
        EndsBeforeMain(s, t);
        assert ChildOk(s, t);
      }
    }
  }
}
