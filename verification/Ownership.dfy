/** The future of a task: what becomes of it when the task ends, for tasks made by `task()`. */
module Ownership {
  import opened Options
  import opened LoopModel
  import opened FutureModel
  import opened Machine
  import opened Order
  import opened WakeTokens
  import opened Futures
  import opened Runs

  // ------------------------------------------------------- references and endings

  /** A task is DONE exactly when it has ended, and deleted tasks have ended. */
  ghost predicate EndInv(w: World) {
    && (forall i :: 0 <= i < |All(w)| ==> (All(w)[i].id in w.hist.ended <==> All(w)[i].status == Done))
    && (forall t :: t in w.hist.deleted ==> t in w.hist.ended)
    && (forall t :: t in w.hist.ended ==> t < w.loop.nextId)
  }

  /** Nothing refers to a future that does not exist yet, or names a task that does not. */
  ghost predicate RefInv(w: World) {
    && (forall t :: t in w.wrapped ==> w.wrapped[t] < |w.futures| && t < w.loop.nextId)
    && (forall i :: 0 <= i < |All(w)| && All(w)[i].result.Some? ==> All(w)[i].result.value < |w.futures|)
  }

  lemma EndInitially(w: World)
    requires Initial(w)
    ensures EndInv(w) && RefInv(w)
  {}

  /** A task ends exactly when it gives control back as DONE. */
  lemma LeavingEnds(w: World, a: Act)
    requires Allowed(w, a) && GivesBack(a)
    ensures Step(w, a).hist.ended.Keys == w.hist.ended.Keys + if LeavingStatus(a) == Done then {Self(w).id} else {}
  {}

  lemma EndLeft(w: World, u: World, s: Status)
    requires EndInv(w) && Leaves(w, u, s) && Self(w).status == Exec && OrderInv(w)
    requires u.hist.ended.Keys == w.hist.ended.Keys + if s == Done then {Self(w).id} else {}
    ensures EndInv(u)
  {
    IdsIncrease(w);
    AllAt(w);
    AllAt(u);
    assert All(w)[w.loop.current] == Self(w);
    assert forall i :: 0 <= i < |All(w)| && i != w.loop.current ==> All(u)[i] == All(w)[i];
  }

  lemma EndLeaves(w: World, a: Act)
    requires Inv(w) && EndInv(w) && Allowed(w, a) && GivesBack(a)
    ensures EndInv(Step(w, a))
  {
    GivingBackLeaves(w, a);
    LeavingEnds(w, a);
    EndLeft(w, Step(w, a), LeavingStatus(a));
  }

  lemma EndDrain(w: World)
    requires Inv(w) && EndInv(w) && w.phase.Idle? && w.loop.running
    ensures WakesOnlyWaiting(w)
    ensures EndInv(Drain(w)) && Selecting(Drain(w)) && OrderInv(Drain(w))
  {
    TokensNameWaiting(w);
    OrderDrain(w);
    AllAt(w);
    assert All(Drain(w)) == Drain(w).loop.tasks;
  }

  lemma EndDispatch(w: World)
    requires OrderInv(w) && EndInv(w) && Selecting(w) && Self(w).status != Done
    ensures EndInv(Dispatch(w))
  {
    assert All(w) == w.loop.tasks && All(Dispatch(w)) == Dispatch(w).loop.tasks;
  }

  /** The current task of `w` has left the list. */
  ghost predicate Erased(w: World, u: World) {
    var c := w.loop.current;
    && w.loop.toStart == [] == u.loop.toStart && c < |w.loop.tasks|
    && u.loop.tasks == w.loop.tasks[..c] + w.loop.tasks[c + 1..]
    && u.loop.nextId == w.loop.nextId
    && u.hist.ended == w.hist.ended && u.hist.deleted == w.hist.deleted + [Self(w).id]
    && u.wrapped == w.wrapped && |u.futures| == |w.futures| && u.hist.base == w.hist.base
  }

  lemma CleanUpKeeps(w: World)
    requires w.loop.current < |w.loop.tasks|
    ensures CleanUp(w).hist.ended == w.hist.ended && CleanUp(w).wrapped == w.wrapped
    ensures |CleanUp(w).futures| == |w.futures|
  {}

  lemma CleanUpIsErased(w: World)
    requires Selecting(w) && !CleanUp(w).phase.Orphaned?
    ensures Erased(w, CleanUp(w))
  {
    CleanUpErases(w);
  }

  lemma ErasedAt(w: World, u: World)
    requires Erased(w, u)
    ensures |All(u)| == |All(w)| - 1
    ensures forall i :: 0 <= i < |All(u)| ==> All(u)[i] == All(w)[if i < w.loop.current then i else i + 1]
    ensures All(w)[w.loop.current] == Self(w)
  {
    assert All(w) == w.loop.tasks && All(u) == u.loop.tasks;
  }

  lemma EndErased(w: World, u: World)
    requires EndInv(w) && Erased(w, u) && Self(w).status == Done
    ensures EndInv(u)
  {
    ErasedAt(w, u);
    assert Self(w).id in w.hist.ended;
  }

  lemma EndCleanUp(w: World)
    requires EndInv(w) && Selecting(w) && Self(w).status == Done
    ensures EndInv(CleanUp(w))
  {
    var u := CleanUp(w);
    if u.phase.Orphaned? {
      assert All(u) == All(w);
    } else {
      CleanUpIsErased(w);
      EndErased(w, u);
    }
  }

  lemma OthersEndNone(w: World, a: Act)
    requires Allowed(w, a) && !GivesBack(a) && !a.Cycle?
    ensures Step(w, a).hist.ended == w.hist.ended
  {}

  lemma EndSame(w: World, u: World)
    requires EndInv(w) && Quiet(w, u) && u.hist.ended == w.hist.ended
    ensures EndInv(u)
  {
    AllAt(w);
    AllAt(u);
    assert forall i :: 0 <= i < |All(u)| ==> All(u)[i].id == All(w)[i].id && All(u)[i].status == All(w)[i].status;
  }

  lemma EndOthers(w: World, a: Act)
    requires EndInv(w) && Allowed(w, a) && !GivesBack(a) && !a.Cycle?
    ensures EndInv(Step(w, a))
  {
    if a.Spawn? {
      assert All(Step(w, a)) == All(w) + [All(Step(w, a))[|All(w)|]];
    } else {
      OthersAreQuiet(w, a);
      OthersEndNone(w, a);
      EndSame(w, Step(w, a));
    }
  }

  // ------------------------------------------------------- who refers to what

  /** The same tasks are bound to the same futures. */
  ghost predicate SameNames(w: World, u: World) {
    && |All(u)| == |All(w)|
    && (forall i :: 0 <= i < |All(w)| ==> All(u)[i].id == All(w)[i].id && All(u)[i].result == All(w)[i].result)
    && u.wrapped == w.wrapped && u.loop.nextId == w.loop.nextId && |w.futures| <= |u.futures|
    && u.hist.base == w.hist.base
  }

  lemma RefSame(w: World, u: World)
    requires RefInv(w) && SameNames(w, u)
    ensures RefInv(u)
  {}

  lemma DrainKeepsNames(w: World)
    requires Inv(w) && w.phase.Idle? && w.loop.running
    ensures AllListed(w.loop.tasks, w.loop.toWake) && SameNames(w, Drain(w))
  {
    TokensNameWaiting(w);
    OrderDrain(w);
    assert All(Drain(w)) == Drain(w).loop.tasks;
  }

  lemma DispatchKeepsNames(w: World)
    requires Selecting(w) && Self(w).status != Done
    ensures SameNames(w, Dispatch(w))
  {
    assert All(w) == w.loop.tasks && All(Dispatch(w)) == Dispatch(w).loop.tasks;
  }

  lemma LeavingKeepsNames(w: World, u: World, s: Status)
    requires Leaves(w, u, s) && u.wrapped == w.wrapped && |w.futures| <= |u.futures|
    ensures SameNames(w, u)
  {
    assert forall i :: 0 <= i < |w.loop.tasks| ==>
      u.loop.tasks[i].id == w.loop.tasks[i].id && u.loop.tasks[i].result == w.loop.tasks[i].result;
    assert All(u)[|u.loop.tasks|..] == All(w)[|w.loop.tasks|..];
    AllAt(w);
    AllAt(u);
  }

  lemma LeavingWrapsNothing(w: World, a: Act)
    requires Allowed(w, a) && GivesBack(a)
    ensures Step(w, a).wrapped == w.wrapped && |w.futures| <= |Step(w, a).futures|
  {}

  lemma InSliceWrapsNothing(w: World, a: Act)
    requires Allowed(w, a) && !GivesBack(a) && !a.Cycle? && !a.Spawn?
    ensures Step(w, a).wrapped == w.wrapped && |w.futures| <= |Step(w, a).futures|
  {}

  lemma InSliceKeepsNames(w: World, a: Act)
    requires Allowed(w, a) && !GivesBack(a) && !a.Cycle? && !a.Spawn? && !a.Bind?
    ensures SameNames(w, Step(w, a))
  {
    InSliceWrapsNothing(w, a);
    assert Step(w, a).loop.tasks == w.loop.tasks && Step(w, a).loop.toStart == w.loop.toStart;
  }

  lemma OthersKeepNames(w: World, a: Act)
    requires Allowed(w, a) && !a.Cycle? && !a.Spawn? && !a.Bind?
    ensures SameNames(w, Step(w, a))
  {
    if GivesBack(a) {
      GivingBackLeaves(w, a);
      LeavingWrapsNothing(w, a);
      LeavingKeepsNames(w, Step(w, a), LeavingStatus(a));
    } else {
      InSliceKeepsNames(w, a);
    }
  }

  /** A cycle binds nothing: at most the task it picked leaves the list. */
  lemma CycleKeepsNames(w: World)
    requires Inv(w) && Allowed(w, Cycle)
    ensures WakesOnlyWaiting(w) && Selecting(Drain(w)) && SameNames(w, Drain(w))
    ensures SameNames(Drain(w), DoCycle(w)) || Erased(Drain(w), DoCycle(w))
  {
    TokensNameWaiting(w);
    OrderDrain(w);
    DrainKeepsNames(w);
    var d := Drain(w);
    if Self(d).status != Done {
      DispatchKeepsNames(d);
    } else if !CleanUp(d).phase.Orphaned? {
      CleanUpIsErased(d);
    }
  }

  lemma RefErased(w: World, u: World)
    requires RefInv(w) && Erased(w, u)
    ensures RefInv(u)
  {
    ErasedAt(w, u);
  }

  lemma RefSpawn(w: World, wraps: bool)
    requires RefInv(w) && InSlice(w)
    ensures RefInv(DoSpawn(w, wraps))
  {
    var u := DoSpawn(w, wraps);
    assert All(u) == All(w) + [All(u)[|All(w)|]];
  }

  lemma RefBind(w: World, f: FutureId)
    requires RefInv(w) && Allowed(w, Bind(f))
    ensures RefInv(DoBind(w, f))
  {
    assert All(DoBind(w, f)) == All(w)[w.loop.current := Self(w).(result := Some(f))];
  }

  lemma RefOthers(w: World, a: Act)
    requires RefInv(w) && Allowed(w, a) && !a.Cycle?
    ensures RefInv(Step(w, a))
  {
    if a.Spawn? {
      RefSpawn(w, a.wraps);
    } else if a.Bind? {
      RefBind(w, a.f);
    } else {
      OthersKeepNames(w, a);
      RefSame(w, Step(w, a));
    }
  }

  lemma RefCycle(w: World)
    requires Inv(w) && RefInv(w) && Allowed(w, Cycle)
    ensures RefInv(DoCycle(w))
  {
    CycleKeepsNames(w);
    RefSame(w, Drain(w));
    if SameNames(Drain(w), DoCycle(w)) { RefSame(Drain(w), DoCycle(w)); } else { RefErased(Drain(w), DoCycle(w)); }
  }

  lemma EndStep(w: World, a: Act)
    requires Inv(w) && EndInv(w) && RefInv(w) && Allowed(w, a)
    ensures EndInv(Step(w, a)) && RefInv(Step(w, a))
  {
    if a.Cycle? {
      EndDrain(w);
      RefCycle(w);
      if Self(Drain(w)).status == Done { EndCleanUp(Drain(w)); } else { EndDispatch(Drain(w)); }
    } else {
      RefOthers(w, a);
      if GivesBack(a) { EndLeaves(w, a); } else { EndOthers(w, a); }
    }
  }

  lemma {:induction false} RunKeepsEnds(w: World, acts: seq<Act>)
    requires Inv(w) && EndInv(w) && RefInv(w) && AllowedRun(w, acts)
    ensures EndInv(Run(w, acts)) && RefInv(Run(w, acts))
    decreases |acts|
  {
    if acts != [] {
      StepKeepsInv(w, acts[0]);
      EndStep(w, acts[0]);
      RunKeepsEnds(Step(w, acts[0]), acts[1..]);
    }
  }

  /** What every run keeps. */
  ghost predicate Sound(w: World) {
    Inv(w) && EndInv(w) && RefInv(w) && w.loop.mainId == w.hist.base
  }

  lemma StepKeepsSound(w: World, a: Act)
    requires Sound(w) && Allowed(w, a)
    ensures Sound(Step(w, a))
  {
    StepKeepsInv(w, a);
    EndStep(w, a);
    StepKeepsBase(w, a);
  }

  lemma RunKeepsSound(w: World, acts: seq<Act>)
    requires Sound(w) && AllowedRun(w, acts)
    ensures Sound(Run(w, acts))
  {
    RunKeepsInv(w, acts);
    RunKeepsEnds(w, acts);
    BaseIsFixed(w, acts);
  }

  lemma SoundInitially(w: World)
    requires Initial(w)
    ensures Sound(w)
  {
    EndInitially(w);
    OrderInitially(w);
    TokensInitially(w);
    FuturesInitially(w);
  }

  lemma ReachableSound(w: World, acts: seq<Act>)
    requires Initial(w) && AllowedRun(w, acts)
    ensures Sound(Run(w, acts))
    ensures Run(w, acts).hist.base == w.hist.base && Run(w, acts).keepGoing == w.keepGoing
  {
    SoundInitially(w);
    RunKeepsSound(w, acts);
    BaseIsFixed(w, acts);
  }

  predicate Spawned(w: World, t: TaskId) {
    w.hist.base <= t < w.loop.nextId
  }

  /** The executing task has not ended. */
  lemma ExecutingHasNotEnded(w: World)
    requires Inv(w) && EndInv(w) && InSlice(w)
    ensures Spawned(w, Self(w).id) && Self(w).id !in w.hist.ended
  {
    AllAt(w);
    assert Self(w) == All(w)[w.loop.current];
  }

  /** A task that has not ended is still listed, or pending. */
  lemma NotEndedIsListed(w: World, t: TaskId) returns (i: nat)
    requires OrderInv(w) && EndInv(w) && Spawned(w, t) && t !in w.hist.ended
    ensures i < |All(w)| && All(w)[i].id == t
  {
    var range := Range(w.hist.base, w.loop.nextId - w.hist.base);
    assert range[t - w.hist.base] == t;
    assert t in multiset(range);
    assert t !in w.hist.deleted;
    assert t in multiset(Ids(All(w)));
    i :| 0 <= i < |Ids(All(w))| && Ids(All(w))[i] == t;
  }

  // ------------------------------------------------------- one task and its future

  /** Only task `t` refers to future `f`, and maybe main: `run<T>(task)` binds it to its child's. */
  ghost predicate OnlyRefersTo(w: World, t: TaskId, f: FutureId) {
    && w.hist.base < t < w.loop.nextId && f < |w.futures|
    && t in w.wrapped && w.wrapped[t] == f
    && (forall u :: u in w.wrapped && u != t ==> w.wrapped[u] != f)
    && (forall i :: 0 <= i < |All(w)| && All(w)[i].id == t ==> All(w)[i].result == Some(f))
    && (forall i :: 0 <= i < |All(w)| && All(w)[i].result == Some(f) ==> All(w)[i].id in {t, w.hist.base})
  }

  /** The future of `t` is unresolved until `t` ends; a worker that returns completes it,
      and a task that ends otherwise leaves it to be cancelled, at last when the task is deleted. */
  predicate FateOk(w: World, t: TaskId, f: FutureId) {
    f < |w.futures| &&
    if t !in w.hist.ended then !w.futures[f].Resolved() && t !in w.hist.deleted
    else if w.hist.ended[t] == Finished then w.futures[f].completed && !w.futures[f].cancelled
    else !w.futures[f].completed && (t in w.hist.deleted ==> w.futures[f].cancelled)
  }

  ghost predicate Owns(w: World, t: TaskId, f: FutureId) {
    OnlyRefersTo(w, t, f) && FateOk(w, t, f)
  }

  /** The step does to `f`, or to the binding of `t`, what only their owner should do; but main may
      be bound to `f`. */
  predicate Touches(w: World, a: Act, t: TaskId, f: FutureId) {
    || (a.Complete? && a.f == f)
    || (a.Cancel? && a.f == f)
    || (a.Bind? && w.loop.current < |w.loop.tasks| &&
         (Self(w).id == t || (a.f == f && Self(w).id != w.hist.base)))
  }

  lemma OwnsFromSpawn(w: World)
    requires Inv(w) && EndInv(w) && RefInv(w) && Allowed(w, Spawn(true))
    ensures Owns(Step(w, Spawn(true)), w.loop.nextId, |w.futures|)
  {
    var u := Step(w, Spawn(true));
    assert All(u) == All(w) + [All(u)[|All(w)|]];
    IdsIncrease(w);
    ExecutingHasNotEnded(w);
  }

  lemma RefersSame(w: World, u: World, t: TaskId, f: FutureId)
    requires OnlyRefersTo(w, t, f) && SameNames(w, u)
    ensures OnlyRefersTo(u, t, f)
  {}

  lemma RefersErased(w: World, u: World, t: TaskId, f: FutureId)
    requires OnlyRefersTo(w, t, f) && Erased(w, u)
    ensures OnlyRefersTo(u, t, f)
  {
    ErasedAt(w, u);
  }

  lemma RefersCycle(w: World, t: TaskId, f: FutureId)
    requires Inv(w) && OnlyRefersTo(w, t, f) && Allowed(w, Cycle)
    ensures WakesOnlyWaiting(w) && OnlyRefersTo(Drain(w), t, f) && OnlyRefersTo(DoCycle(w), t, f)
  {
    CycleKeepsNames(w);
    RefersSame(w, Drain(w), t, f);
    if SameNames(Drain(w), DoCycle(w)) {
      RefersSame(Drain(w), DoCycle(w), t, f);
    } else {
      RefersErased(Drain(w), DoCycle(w), t, f);
    }
  }

  lemma RefersOthers(w: World, a: Act, t: TaskId, f: FutureId)
    requires OnlyRefersTo(w, t, f) && Allowed(w, a) && !a.Cycle? && !Touches(w, a, t, f)
    ensures OnlyRefersTo(Step(w, a), t, f)
  {
    var u := Step(w, a);
    if a.Spawn? {
      assert All(u) == All(w) + [All(u)[|All(w)|]];
    } else if a.Bind? {
      assert All(u) == All(w)[w.loop.current := Self(w).(result := Some(a.f))];
    } else {
      OthersKeepNames(w, a);
      RefersSame(w, u, t, f);
    }
  }

  /** When main is deleted every other task has ended. */
  lemma OthersHaveEnded(w: World, t: TaskId)
    requires OrderInv(w) && EndInv(w) && Selecting(w) && Spawned(w, t) && w.loop.mainId == w.hist.base
    requires Self(w).status == Done && Self(w).id == w.hist.base && !CleanUp(w).phase.Orphaned?
    ensures t in w.hist.ended
  {
    NothingPending(w);
    if t !in w.hist.ended {
      var i := NotEndedIsListed(w, t);
    }
  }

  /** The clean-up cancels `f`, or leaves it as it is. */
  lemma CleanUpAt(w: World, f: FutureId)
    requires w.phase.Idle? && w.loop.current < |w.loop.tasks| && !CleanUp(w).phase.Orphaned? && f < |w.futures|
    ensures f < |CleanUp(w).futures|
    ensures CleanUp(w).futures[f] ==
      if Self(w).result == Some(f) && !w.futures[f].completed then AfterCancel(w.futures[f]) else w.futures[f]
  {}

  lemma FateCleanUp(w: World, t: TaskId, f: FutureId)
    requires OrderInv(w) && Selecting(w) && Owns(w, t, f) && EndInv(w) && Self(w).status == Done
    requires w.loop.mainId == w.hist.base
    ensures FateOk(CleanUp(w), t, f)
  {
    NothingPending(w);
    assert Self(w) == All(w)[w.loop.current];
    if !CleanUp(w).phase.Orphaned? {
      CleanUpIsErased(w);
      CleanUpAt(w, f);
      if Self(w).id == w.hist.base { OthersHaveEnded(w, t); }
    }
  }

  /** A worker that returns completes its own future, and no other one. */
  lemma FateReturn(w: World, v: Value, t: TaskId, f: FutureId)
    requires FateOk(w, t, f) && Allowed(w, Return(v)) && Self(w).id !in w.hist.ended
    requires forall u :: u in w.wrapped ==> (w.wrapped[u] == f <==> u == t)
    requires t in w.wrapped
    ensures FateOk(DoReturn(w, v), t, f)
  {}

  lemma FateLeaves(w: World, a: Act, t: TaskId, f: FutureId)
    requires FateOk(w, t, f) && Allowed(w, a) && GivesBack(a) && !a.Return? && Self(w).id !in w.hist.ended
    ensures FateOk(Step(w, a), t, f)
  {}

  lemma CurrentHasNotEnded(w: World, a: Act)
    requires Inv(w) && EndInv(w) && Allowed(w, a) && GivesBack(a)
    ensures Self(w).id !in w.hist.ended
  {
    GivingBackLeaves(w, a);
    AllAt(w);
    assert Self(w) == All(w)[w.loop.current];
  }

  lemma FateOthers(w: World, a: Act, t: TaskId, f: FutureId)
    requires FateOk(w, t, f) && Allowed(w, a) && !GivesBack(a) && !a.Cycle? && !Touches(w, a, t, f)
    ensures FateOk(Step(w, a), t, f)
  {}

  lemma FateDispatch(w: World, t: TaskId, f: FutureId)
    requires FateOk(w, t, f) && Selecting(w) && Self(w).status != Done
    ensures FateOk(Dispatch(w), t, f)
  {}

  lemma FateCycle(w: World, t: TaskId, f: FutureId)
    requires Sound(w) && Owns(w, t, f) && Allowed(w, Cycle)
    ensures FateOk(DoCycle(w), t, f)
  {
    EndDrain(w);
    RefersCycle(w, t, f);
    var d := Drain(w);
    if Self(d).status == Done { FateCleanUp(d, t, f); } else { FateDispatch(d, t, f); }
  }

  lemma FateSlice(w: World, a: Act, t: TaskId, f: FutureId)
    requires Inv(w) && EndInv(w) && Owns(w, t, f) && Allowed(w, a) && !a.Cycle? && !Touches(w, a, t, f)
    ensures FateOk(Step(w, a), t, f)
  {
    if GivesBack(a) {
      CurrentHasNotEnded(w, a);
      if a.Return? { FateReturn(w, a.v, t, f); } else { FateLeaves(w, a, t, f); }
    } else {
      FateOthers(w, a, t, f);
    }
  }

  lemma OwnsStep(w: World, a: Act, t: TaskId, f: FutureId)
    requires Sound(w) && Owns(w, t, f) && Allowed(w, a) && !Touches(w, a, t, f)
    ensures Owns(Step(w, a), t, f)
  {
    if a.Cycle? {
      RefersCycle(w, t, f);
      FateCycle(w, t, f);
    } else {
      RefersOthers(w, a, t, f);
      FateSlice(w, a, t, f);
    }
  }

  // ------------------------------------------------------- runs

  predicate Untouched(w: World, acts: seq<Act>, t: TaskId, f: FutureId)
    requires AllowedRun(w, acts)
    decreases |acts|
  {
    acts == [] || (!Touches(w, acts[0], t, f) && Untouched(Step(w, acts[0]), acts[1..], t, f))
  }

  lemma {:induction false} RunKeepsOwns(w: World, acts: seq<Act>, t: TaskId, f: FutureId)
    requires Sound(w) && Owns(w, t, f) && AllowedRun(w, acts) && Untouched(w, acts, t, f)
    ensures Owns(Run(w, acts), t, f)
    decreases |acts|
  {
    if acts != [] {
      StepKeepsSound(w, acts[0]);
      OwnsStep(w, acts[0], t, f);
      RunKeepsOwns(Step(w, acts[0]), acts[1..], t, f);
    }
  }

  /** A task that `task()` made, by a step in any reachable world, resolves its future, which main may
      be bound to as well: once the task is deleted the future is completed if the worker returned and
      cancelled if it did not, and every task suspended on it is awake or in the wake list. */
  lemma TaskFutureResolves(w: World, before: seq<Act>, after: seq<Act>)
    requires Initial(w) && AllowedRun(w, before) && Allowed(Run(w, before), Spawn(true))
    requires AllowedRun(Step(Run(w, before), Spawn(true)), after)
    requires var s := Run(w, before);
      Untouched(Step(s, Spawn(true)), after, s.loop.nextId, |s.futures|)
    ensures var s := Run(w, before);
      var t, f, u := s.loop.nextId, |s.futures|, Run(Step(s, Spawn(true)), after);
      && f < |u.futures|
      && (t in u.hist.deleted ==> t in u.hist.ended)
      && (t in u.hist.deleted ==> (u.futures[f].completed <==> u.hist.ended[t] == Finished))
      && (t in u.hist.deleted ==> (u.futures[f].cancelled <==> u.hist.ended[t] != Finished))
      && (t !in u.hist.ended ==> !u.futures[f].Resolved())
      && (t in u.hist.deleted ==>
           forall x :: x in u.position && u.position[x] == f && Waits(u.loop.tasks, x) ==> x in u.loop.toWake)
  {
    var s := Run(w, before);
    ReachableSound(w, before);
    var s1 := Step(s, Spawn(true));
    OwnsFromSpawn(s);
    StepKeepsSound(s, Spawn(true));
    RunKeepsOwns(s1, after, s.loop.nextId, |s.futures|);
    RunKeepsInv(s1, after);
    RunKeepsEnds(s1, after);
    var u := Run(s1, after);
    forall x |
      x in u.position && u.position[x] == |s.futures| && Waits(u.loop.tasks, x) && s.loop.nextId in u.hist.deleted
      ensures x in u.loop.toWake
    {
      assert PositionOk(u, x);
    }
  }
}
