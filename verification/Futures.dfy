/** What futures mean over a run: the flags agree with what was done to the future, a
    suspended `await` cannot miss the resolution, and it reports nothing else. */
module Futures {
  import opened LoopModel
  import opened FutureModel
  import opened Machine
  import opened Order
  import opened WakeTokens

  // ------------------------------------------------------- flags and history

  lemma ValuesAppend(cs: seq<(FutureId, Value)>, c: (FutureId, Value), f: FutureId)
    ensures Values(cs + [c], f) == Values(cs, f) + if c.0 == f then [c.1] else []
    ensures c.0 != f ==> Values(cs + [c], f) == Values(cs, f)
    ensures c.0 == f && Values(cs, f) == [] ==> Values(cs + [c], f) == [c.1]
  {
    assert (cs + [c])[..|cs|] == cs;
  }

  /** A task suspended in `await` is registered with the future while it is unresolved,
      and is in the wake list, or already awake, once it is resolved. */
  predicate PositionOk(w: World, t: TaskId) {
    t in w.position ==>
      && t < w.hist.base + |w.hist.started|
      && w.position[t] < |w.futures|
      && (if w.futures[w.position[t]].Resolved()
          then Waits(w.loop.tasks, t) ==> t in w.loop.toWake
          else t in w.futures[w.position[t]].waiters)
      && (w.phase.Busy? || w.phase.Saved? ==> w.loop.current < |w.loop.tasks| && Self(w).id != t)
  }

  ghost predicate FutureInv(w: World) {
    && (forall f: FutureId :: FlagsOk(w, f))
    && (forall k :: 0 <= k < |w.hist.awaits| ==> RecordOk(w, w.hist.awaits[k]))
    && (forall t :: PositionOk(w, t))
  }

  lemma FuturesInitially(w: World)
    requires Initial(w)
    ensures FutureInv(w)
  {}

  // ------------------------------------------------------- flags

  lemma FlagsComplete(w: World, g: FutureId, v: Value, f: FutureId)
    requires FlagsOk(w, f) && FlagsOk(w, g) && Unresolved(w, g)
    ensures FlagsOk(CompleteFuture(w, g, v), f)
  {
    ValuesAppend(w.hist.completions, (g, v), f);
    assert CompleteFuture(w, g, v).hist.completions == w.hist.completions + [(g, v)];
  }

  lemma FlagsCancel(w: World, g: FutureId, f: FutureId)
    requires FlagsOk(w, f) && FlagsOk(w, g) && Unresolved(w, g)
    ensures FlagsOk(CancelFuture(w, g), f)
  {
    assert multiset(w.hist.cancels + [g])[f] == multiset(w.hist.cancels)[f] + if f == g then 1 else 0;
  }

  /** Futures keep their flags and value, and only their waiters may change. */
  ghost predicate SameFlags(w: World, u: World) {
    && |w.futures| <= |u.futures|
    && (forall f :: 0 <= f < |w.futures| ==>
         u.futures[f].completed == w.futures[f].completed && u.futures[f].cancelled == w.futures[f].cancelled
         && u.futures[f].value == w.futures[f].value)
    && (forall f :: |w.futures| <= f < |u.futures| ==> u.futures[f] == FRESH)
    && u.hist.completions == w.hist.completions && u.hist.cancels == w.hist.cancels
  }

  lemma FlagsSame(w: World, u: World, f: FutureId)
    requires FlagsOk(w, f) && SameFlags(w, u)
    ensures FlagsOk(u, f)
  {}

  predicate Resolves(a: Act) {
    a.Complete? || a.Cancel? || a.Return? || a.Cycle?
  }

  lemma OthersKeepFlags(w: World, a: Act)
    requires Allowed(w, a) && !Resolves(a)
    ensures SameFlags(w, Step(w, a))
  {}

  /** `cleanUpTask` has a future left to cancel. */
  predicate Cancels(w: World)
    requires w.loop.current < |w.loop.tasks|
  {
    Self(w).result.Some? && Self(w).result.value < |w.futures| && !w.futures[Self(w).result.value].completed
  }

  lemma CleanUpFlags(w: World)
    requires w.phase.Idle? && w.loop.current < |w.loop.tasks|
    ensures if Cancels(w) && !CleanUp(w).phase.Orphaned?
      then SameFlags(CancelFuture(w, Self(w).result.value), CleanUp(w)) else SameFlags(w, CleanUp(w))
  {
    if Cancels(w) && !CleanUp(w).phase.Orphaned? {
      assert CleanUp(w).futures == CancelFuture(w, Self(w).result.value).futures;
    } else {
      assert CleanUp(w).futures == w.futures;
    }
  }

  lemma FlagsCleanUp(w: World, f: FutureId)
    requires FlagsOk(w, f) && w.phase.Idle? && w.loop.current < |w.loop.tasks| && ResultNotCancelled(w)
    requires Self(w).result.Some? ==> FlagsOk(w, Self(w).result.value)
    ensures FlagsOk(CleanUp(w), f)
  {
    CleanUpFlags(w);
    if Cancels(w) && !CleanUp(w).phase.Orphaned? {
      FlagsCancel(w, Self(w).result.value, f);
      FlagsSame(CancelFuture(w, Self(w).result.value), CleanUp(w), f);
    } else {
      FlagsSame(w, CleanUp(w), f);
    }
  }

  lemma FlagsSelect(w: World)
    requires w.loop.current < |w.loop.tasks| && Self(w).status != Done
    ensures SameFlags(w, Dispatch(w))
  {}

  lemma FlagsCycle(w: World, f: FutureId)
    requires FutureInv(w) && OrderInv(w) && TokenInv(w) && Allowed(w, Cycle)
    ensures FlagsOk(DoCycle(w), f)
  {
    TokensNameWaiting(w);
    OrderDrain(w);
    var d := Drain(w);
    FlagsSame(w, d, f);
    if Self(d).status == Done {
      if Self(d).result.Some? { FlagsSame(w, d, Self(d).result.value); }
      FlagsCleanUp(d, f);
    } else {
      FlagsSelect(d);
      FlagsSame(d, Dispatch(d), f);
    }
  }

  lemma FlagsReturn(w: World, v: Value, f: FutureId)
    requires Allowed(w, Return(v)) && FlagsOk(w, f)
    requires Self(w).id in w.wrapped ==> FlagsOk(w, w.wrapped[Self(w).id])
    ensures FlagsOk(DoReturn(w, v), f)
  {
    if Self(w).id in w.wrapped {
      FlagsComplete(w, w.wrapped[Self(w).id], v, f);
      FlagsSame(CompleteFuture(w, w.wrapped[Self(w).id], v), DoReturn(w, v), f);
    }
  }

  lemma FlagsInSlice(w: World, a: Act, f: FutureId)
    requires Allowed(w, a) && !a.Cycle? && forall g: FutureId :: FlagsOk(w, g)
    ensures FlagsOk(Step(w, a), f)
  {
    assert FlagsOk(w, f);
    if a.Complete? {
      FlagsComplete(w, a.f, a.v, f);
    } else if a.Cancel? {
      FlagsCancel(w, a.f, f);
    } else if a.Return? {
      FlagsReturn(w, a.v, f);
    } else {
      OthersKeepFlags(w, a);
      FlagsSame(w, Step(w, a), f);
    }
  }

  lemma FlagsStep(w: World, a: Act, f: FutureId)
    requires FutureInv(w) && OrderInv(w) && TokenInv(w) && Allowed(w, a)
    ensures FlagsOk(Step(w, a), f)
  {
    if a.Cycle? { FlagsCycle(w, f); } else { FlagsInSlice(w, a, f); }
  }

  // ------------------------------------------------------- suspended awaits

  /** A suspended task that is executable has been woken by the resolution of its future. */
  lemma WokenMeansResolved(w: World, t: TaskId)
    requires TokenAt(w, t) && PositionOk(w, t) && t in w.position && !Blocked(w, t)
    ensures w.futures[w.position[t]].Resolved()
  {
    var f := w.position[t];
    if !w.futures[f].Resolved() {
      TotalAtLeast(w.futures, InFuture, f, t);
      CountMember(w.futures[f].waiters, t);
    }
  }

  lemma PositionDrain(w: World, t: TaskId)
    requires PositionOk(w, t) && OrderInv(w) && TokenInv(w) && w.phase.Idle? && w.loop.running
    ensures WakesOnlyWaiting(w) && PositionOk(Drain(w), t)
  {
    TokensNameWaiting(w);
    BlockedDrains(w, t);
  }

  lemma PositionResolve(w: World, f: FutureId, x: Future<Value>, t: TaskId)
    requires PositionOk(w, t) && f < |w.futures| && x.Resolved()
    ensures PositionOk(Push(w, w.futures[f].waiters).(futures := w.futures[f := x]), t)
  {}

  lemma PositionErase(w: World, t: TaskId)
    requires PositionOk(w, t) && OrderInv(w) && Selecting(w) && Self(w).status == Done
    ensures PositionOk(CleanUp(w), t)
  {
    BlockedCleanUp(w, t);
    if CleanUp(w).phase.Orphaned? {
    } else if Self(w).result.Some? && Self(w).result.value < |w.futures| && !w.futures[Self(w).result.value].completed {
      var g := Self(w).result.value;
      PositionResolve(w, g, w.futures[g].(cancelled := true), t);
    }
  }

  lemma PositionSelect(w: World, t: TaskId)
    requires PositionOk(w, t) && OrderInv(w) && Selecting(w) && Self(w).status != Done
    ensures PositionOk(Dispatch(w), t)
  {
    if Self(w).status == Init {
      NextToStart(w);
      IdsIncrease(w);
      WaitsUpdate(w.loop.tasks, w.loop.current, Exec, t);
    }
  }

  lemma PositionCycle(w: World, t: TaskId)
    requires PositionOk(w, t) && OrderInv(w) && TokenInv(w) && Allowed(w, Cycle)
    ensures PositionOk(DoCycle(w), t)
  {
    PositionDrain(w, t);
    OrderDrain(w);
    var d := Drain(w);
    if Self(d).status == Done {
      PositionErase(d, t);
    } else {
      PositionSelect(d, t);
    }
  }

  /** A step that resolves nothing, and moves neither cursor nor awaiting tasks. */
  lemma PositionQuiet(w: World, u: World, t: TaskId)
    requires PositionOk(w, t) && Quiet(w, u) && w.phase == u.phase && Blocked(u, t) == Blocked(w, t)
    requires u.position == w.position && w.loop.toWake <= u.loop.toWake && w.futures <= u.futures
    ensures PositionOk(u, t)
  {
    if t in w.loop.toWake { assert t in u.loop.toWake; }
    if t in w.position { assert u.futures[w.position[t]] == w.futures[w.position[t]]; }
  }

  lemma OthersGrow(w: World, a: Act)
    requires Allowed(w, a) && (MovesTokens(a) || MovesNoToken(a)) && !Resolves(a)
    ensures var u := Step(w, a);
      u.position == w.position && w.loop.toWake <= u.loop.toWake && w.futures <= u.futures && w.phase == u.phase
  {}

  lemma PositionOthers(w: World, u: World, a: Act, t: TaskId)
    requires PositionOk(w, t) && Allowed(w, a) && (MovesTokens(a) || MovesNoToken(a)) && !Resolves(a) && !a.Spawn?
    requires u == Step(w, a)
    ensures PositionOk(u, t)
  {
    InSliceQuiet(w, a, t);
    OthersAreQuiet(w, a);
    OthersGrow(w, a);
    PositionQuiet(w, u, t);
  }

  lemma PositionSpawn(w: World, wraps: bool, t: TaskId)
    requires PositionOk(w, t) && InSlice(w)
    ensures PositionOk(DoSpawn(w, wraps), t)
  {}

  lemma PositionInSlice(w: World, a: Act, t: TaskId)
    requires PositionOk(w, t) && Allowed(w, a) && (MovesTokens(a) || MovesNoToken(a))
    ensures PositionOk(Step(w, a), t)
  {
    if a.Complete? {
      PositionResolve(w, a.f, AfterComplete(w.futures[a.f], a.v), t);
    } else if a.Cancel? {
      PositionResolve(w, a.f, AfterCancel(w.futures[a.f]), t);
    } else if a.Spawn? {
      PositionSpawn(w, a.wraps, t);
    } else {
      PositionOthers(w, Step(w, a), a, t);
    }
  }

  lemma PositionReturn(w: World, v: Value, t: TaskId)
    requires PositionOk(w, t) && OrderInv(w) && Allowed(w, Return(v))
    ensures PositionOk(DoReturn(w, v), t)
  {
    BlockedLeaves(w, Return(v), t);
    if Self(w).id in w.wrapped {
      var f := w.wrapped[Self(w).id];
      PositionResolve(w, f, AfterComplete(w.futures[f], v), t);
    }
  }

  lemma PositionAwait(w: World, f: FutureId, t: TaskId)
    requires PositionOk(w, t) && OrderInv(w) && Allowed(w, AwaitBlock(f))
    ensures PositionOk(DoAwaitBlock(w, f), t)
  {
    BlockedLeaves(w, AwaitBlock(f), t);
    AllAt(w);
  }

  lemma PositionLeave(w: World, a: Act, t: TaskId)
    requires PositionOk(w, t) && OrderInv(w) && Allowed(w, a) && GivesBack(a)
    ensures PositionOk(Step(w, a), t)
  {
    if a.Return? {
      PositionReturn(w, a.v, t);
    } else if a.AwaitBlock? {
      PositionAwait(w, a.f, t);
    } else {
      BlockedLeaves(w, a, t);
    }
  }

  lemma PositionStep(w: World, a: Act, t: TaskId)
    requires PositionOk(w, t) && OrderInv(w) && TokenInv(w) && Allowed(w, a)
    ensures PositionOk(Step(w, a), t)
  {
    if a.Cycle? {
      PositionCycle(w, t);
    } else if GivesBack(a) {
      PositionLeave(w, a, t);
    } else if a.SaveWaiter? {
    } else {
      PositionInSlice(w, a, t);
    }
  }

  // ------------------------------------------------------- await records

  /** A resolved future stays as it is, because nothing resolves it again. */
  ghost predicate KeepsResolved(w: World, u: World) {
    |w.futures| <= |u.futures| && forall f :: 0 <= f < |w.futures| && w.futures[f].Resolved() ==>
      u.futures[f].completed == w.futures[f].completed && u.futures[f].cancelled == w.futures[f].cancelled
      && u.futures[f].value == w.futures[f].value
  }

  lemma ResolvingKeepsResolved(w: World, f: FutureId, v: Value)
    requires Unresolved(w, f)
    ensures KeepsResolved(w, CompleteFuture(w, f, v)) && KeepsResolved(w, CancelFuture(w, f))
  {}

  lemma CleanUpKeepsResolved(w: World)
    requires w.phase.Idle? && w.loop.current < |w.loop.tasks| && ResultNotCancelled(w)
    ensures KeepsResolved(w, CleanUp(w))
  {
    CleanUpFlags(w);
    if Cancels(w) { ResolvingKeepsResolved(w, Self(w).result.value, 0); }
  }

  lemma CycleKeepsResolved(w: World)
    requires OrderInv(w) && TokenInv(w) && Allowed(w, Cycle)
    ensures KeepsResolved(w, DoCycle(w))
  {
    TokensNameWaiting(w);
    OrderDrain(w);
    var d := Drain(w);
    if Self(d).status == Done { CleanUpKeepsResolved(d); } else { FlagsSelect(d); }
  }

  lemma ReturnKeepsResolved(w: World, v: Value)
    requires Allowed(w, Return(v))
    ensures KeepsResolved(w, DoReturn(w, v))
  {
    if Self(w).id in w.wrapped { ResolvingKeepsResolved(w, w.wrapped[Self(w).id], v); }
  }

  lemma SameFlagsKeepsResolved(w: World, u: World)
    requires SameFlags(w, u)
    ensures KeepsResolved(w, u)
  {}

  lemma StepKeepsResolved(w: World, a: Act)
    requires OrderInv(w) && TokenInv(w) && Allowed(w, a)
    ensures KeepsResolved(w, Step(w, a))
  {
    if a.Cycle? {
      CycleKeepsResolved(w);
    } else if a.Complete? {
      ResolvingKeepsResolved(w, a.f, a.v);
    } else if a.Cancel? {
      ResolvingKeepsResolved(w, a.f, 0);
    } else if a.Return? {
      ReturnKeepsResolved(w, a.v);
    } else {
      OthersKeepFlags(w, a);
      SameFlagsKeepsResolved(w, Step(w, a));
    }
  }

  /** At most one record is added, and it is true of the world it is made in. */
  predicate RecordsTruly(w: World, u: World) {
    u.hist.awaits == w.hist.awaits ||
    (|u.hist.awaits| == |w.hist.awaits| + 1 && u.hist.awaits[..|w.hist.awaits|] == w.hist.awaits
     && RecordOk(u, u.hist.awaits[|w.hist.awaits|]))
  }

  lemma AwaitsResume(w: World)
    requires OrderInv(w) && TokenInv(w) && FutureInv(w) && Selecting(w) && Self(w).status == Exec
    ensures RecordsTruly(w, Resume(w))
  {
    var t := Self(w).id;
    if t in w.position {
      assert PositionOk(w, t) && TokenAt(w, t);
      IdsIncrease(w);
      assert !Blocked(w, t);
      WokenMeansResolved(w, t);
      assert FlagsOk(w, w.position[t]);
    }
  }

  lemma DrainKeepsFutures(w: World)
    requires OrderInv(w) && TokenInv(w) && FutureInv(w) && Allowed(w, Cycle)
    ensures WakesOnlyWaiting(w) && Selecting(Drain(w))
    ensures OrderInv(Drain(w)) && TokenInv(Drain(w)) && FutureInv(Drain(w))
  {
    TokensNameWaiting(w);
    OrderDrain(w);
    var d := Drain(w);
    forall t ensures TokenAt(d, t) && PositionOk(d, t) {
      TokensDrain(w, t);
      PositionDrain(w, t);
    }
    forall f: FutureId ensures FlagsOk(d, f) {
      FlagsSame(w, d, f);
    }
  }

  lemma AwaitsStep(w: World, a: Act)
    requires OrderInv(w) && TokenInv(w) && FutureInv(w) && Allowed(w, a)
    ensures RecordsTruly(w, Step(w, a))
  {
    if a.Cycle? {
      DrainKeepsFutures(w);
      if Self(Drain(w)).status == Exec {
        AwaitsResume(Drain(w));
      }
    } else if a.AwaitReady? {
      assert FlagsOk(w, a.f);
    }
  }

  lemma RecordsStay(w: World, u: World)
    requires KeepsResolved(w, u) && RecordsTruly(w, u)
    requires forall k :: 0 <= k < |w.hist.awaits| ==> RecordOk(w, w.hist.awaits[k])
    ensures forall k :: 0 <= k < |u.hist.awaits| ==> RecordOk(u, u.hist.awaits[k])
  {
    forall k | 0 <= k < |u.hist.awaits| ensures RecordOk(u, u.hist.awaits[k]) {
      if k < |w.hist.awaits| {
        assert RecordOk(w, w.hist.awaits[k]);
        assert u.hist.awaits[k] == w.hist.awaits[k];
      }
    }
  }

  lemma FuturesStep(w: World, a: Act)
    requires OrderInv(w) && TokenInv(w) && FutureInv(w) && Allowed(w, a)
    ensures FutureInv(Step(w, a))
  {
    forall f: FutureId ensures FlagsOk(Step(w, a), f) { FlagsStep(w, a, f); }
    forall t ensures PositionOk(Step(w, a), t) { PositionStep(w, a, t); }
    StepKeepsResolved(w, a);
    AwaitsStep(w, a);
    RecordsStay(w, Step(w, a));
  }
}
