/** The join discipline: if every worker awaits all its children before it returns, main is
    the last task to finish, and `MainTaskExitedException` is never thrown. */
module Joining {
  import opened LoopModel
  import opened Machine
  import opened Order
  import opened WakeTokens
  import opened Futures
  import opened Ownership
  import opened Programs

  /** Child `i` of `t` has returned, or `t` has not and will still await it, or is awaiting it. */
  predicate KidOk(s: State, t: TaskId, i: nat) {
    t in s.kids && i < |s.kids[t]| ==>
      var f := s.kids[t][i];
      f < |s.w.futures| && t in s.rest &&
      (s.w.futures[f].completed ||
       (t !in s.w.hist.ended && (Joins(s.rest[t], i) || (t in s.w.position && s.w.position[t] == f))))
  }

  /** The rest of each worker joins the children it has still to spawn; each task but main
      is a child of an older one. */
  predicate TreeOk(s: State, t: TaskId) {
    Spawned(s.w, t) ==>
      && t in s.rest && t in s.kids && JoinsAll(s.rest[t], |s.kids[t]|)
      && (t > s.w.hist.base ==>
           && t in s.parent && Spawned(s.w, s.parent[t]) && s.parent[t] < t
           && s.parent[t] in s.kids && (t - s.w.hist.base - 1) in s.kids[s.parent[t]])
  }

  ghost predicate JoinInv(s: State) {
    && (forall t: TaskId, i: nat :: KidOk(s, t, i))
    && (forall t :: TreeOk(s, t))
    && (forall t :: t in s.kids ==> Spawned(s.w, t))
  }

  lemma JoinBegins(main: Prog, base: TaskId, keepGoing: bool)
    requires JoinsAll(main, 0)
    ensures JoinInv(Begin(main, base, keepGoing))
  {}

  // ------------------------------------------------------- what each step keeps

  /** Resuming an `await` finds the future completed. */
  lemma KidsDispatch(s: State, t: TaskId, i: nat)
    requires OrderInv(s.w) && EndInv(s.w) && BoundToOwn(s.w) && Selecting(s.w) && KidOk(s, t, i)
    requires TokenAt(s.w, t) && PositionOk(s.w, t)
    requires t in s.kids && i < |s.kids[t]| ==> FutureOk(s.w, s.kids[t][i])
    requires Self(s.w).result.Some? ==> FutureOk(s.w, Self(s.w).result.value)
    ensures KidOk(s.(w := Dispatch(s.w)), t, i)
  {
    if Self(s.w).status == Done {
      CleanUpCancelsNothing(s.w);
      CleanUpKeeps(s.w);
      CleanUpKeepsRest(s.w);
    } else if Self(s.w).status == Exec && t == Self(s.w).id && t in s.w.position {
      IdsIncrease(s.w);
      WokenMeansResolved(s.w, t);
    }
  }

  lemma KidsCycle(s: State, t: TaskId, i: nat)
    requires StructInv(s) && CanStep(s) && s.w.phase.Idle? && KidOk(s, t, i)
    ensures KidOk(Next(s), t, i)
  {
    BoundDrain(s.w);
    EndDrain(s.w);
    var d := Drain(s.w);
    assert TokenAt(s.w, t) && PositionOk(s.w, t);
    TokensDrain(s.w, t);
    PositionDrain(s.w, t);
    if t in s.kids && i < |s.kids[t]| { FutureOkDrain(s.w, s.kids[t][i]); }
    if Self(d).result.Some? { FutureOkDrain(s.w, Self(d).result.value); }
    KidsDispatch(s.(w := d), t, i);
  }

  lemma KidsFork(s: State, t: TaskId, i: nat)
    requires Numbered(s.w) && s.w.phase.Busy? && CanStep(s) && s.rest[Self(s.w).id].Fork?
    requires KidOk(s, t, i) && PositionOk(s.w, Self(s.w).id) && Self(s.w).id !in s.w.hist.ended
    requires Spawned(s.w, Self(s.w).id) && TreeOk(s, Self(s.w).id)
    ensures KidOk(Next(s), t, i)
  {
    var n, me := Next(s), Self(s.w).id;
    assert n.w.hist == s.w.hist && n.w.position == s.w.position;
    assert n.w.futures == s.w.futures + [FRESH];
    if t == me {
      assert n.kids[t] == s.kids[t] + [|s.w.futures|];
    } else if t == s.w.loop.nextId {
      assert n.kids[t] == [];
    }
  }

  lemma KidsReturn(s: State, t: TaskId, i: nat)
    requires AtInstr(s) && KidOk(s, t, i) && s.rest[Self(s.w).id].Ret? && Self(s.w).id !in s.w.position
    ensures KidOk(s.(w := DoReturn(s.w, s.rest[Self(s.w).id].value)), t, i)
  {}

  lemma KidsPause(s: State, t: TaskId, i: nat)
    requires AtInstr(s) && KidOk(s, t, i) && s.rest[Self(s.w).id].Pause?
    ensures KidOk(Advanced(s, Self(s.w).id).(w := SwitchOut(s.w, Exec)), t, i)
  {}

  lemma KidsAwaitReady(s: State, t: TaskId, i: nat, f: FutureId)
    requires AtInstr(s) && KidOk(s, t, i) && s.rest[Self(s.w).id].Join?
    requires f == s.kids[Self(s.w).id][s.rest[Self(s.w).id].index] && s.w.futures[f].completed
    ensures KidOk(Advanced(s, Self(s.w).id).(w := LogAwait(s.w, Self(s.w).id, f)), t, i)
  {}

  lemma KidsAwaitBlock(s: State, t: TaskId, i: nat, f: FutureId)
    requires AtInstr(s) && KidOk(s, t, i) && s.rest[Self(s.w).id].Join?
    requires f == s.kids[Self(s.w).id][s.rest[Self(s.w).id].index]
    requires Self(s.w).id !in s.w.position && Self(s.w).id !in s.w.hist.ended
    ensures KidOk(Advanced(s, Self(s.w).id).(w := DoAwaitBlock(s.w, f)), t, i)
  {}

  lemma KidsJoin(s: State, t: TaskId, i: nat)
    requires s.w.phase.Busy? && CanStep(s) && s.rest[Self(s.w).id].Join?
    requires KidOk(s, t, i) && PositionOk(s.w, Self(s.w).id) && Self(s.w).id !in s.w.hist.ended
    ensures KidOk(Next(s), t, i)
  {
    var f := s.kids[Self(s.w).id][s.rest[Self(s.w).id].index];
    if s.w.futures[f].completed { KidsAwaitReady(s, t, i, f); } else { KidsAwaitBlock(s, t, i, f); }
  }

  lemma KidsMove(s: State, t: TaskId, i: nat)
    requires s.w.phase.Busy? && CanStep(s) && !s.rest[Self(s.w).id].Fork?
    requires KidOk(s, t, i) && PositionOk(s.w, Self(s.w).id) && Self(s.w).id !in s.w.hist.ended
    ensures KidOk(Next(s), t, i)
  {
    var p := s.rest[Self(s.w).id];
    if p.Ret? {
      KidsReturn(s, t, i);
    } else if p.Pause? {
      KidsPause(s, t, i);
    } else {
      KidsJoin(s, t, i);
    }
  }

  lemma TreeFork(s: State, t: TaskId)
    requires Numbered(s.w) && s.w.phase.Busy? && CanStep(s) && s.rest[Self(s.w).id].Fork?
    requires Spawned(s.w, Self(s.w).id) && TreeOk(s, t) && TreeOk(s, Self(s.w).id)
    ensures TreeOk(Next(s), t)
  {
    var n, me, id := Next(s), Self(s.w).id, s.w.loop.nextId;
    assert n.w.loop.nextId == id + 1 && n.w.hist.base == s.w.hist.base;
    assert n.kids[me] == s.kids[me] + [|s.w.futures|];
    if t == id {
      assert n.kids[t] == [];
    }
  }

  lemma TreeMoved(s: State, u: World, t: TaskId)
    requires AtInstr(s) && TreeOk(s, t) && !s.rest[Self(s.w).id].Fork? && SameCounts(s.w, u)
    ensures TreeOk(Advanced(s, Self(s.w).id).(w := u), t)
  {
    assert Advanced(s, Self(s.w).id).kids == s.kids;
  }

  lemma TreeMove(s: State, t: TaskId)
    requires s.w.phase.Busy? && CanStep(s) && !s.rest[Self(s.w).id].Fork? && TreeOk(s, t)
    ensures TreeOk(Next(s), t)
  {
    NextIs(s);
    SliceKeepsCounts(s.w, NextAct(s));
    TreeMoved(s, Step(s.w, NextAct(s)), t);
  }

  lemma TreeNext(s: State, t: TaskId)
    requires StructInv(s) && CanStep(s) && s.w.phase.Busy?
    requires TreeOk(s, t) && TreeOk(s, Self(s.w).id)
    ensures TreeOk(Next(s), t)
  {
    ExecutingHasNotEnded(s.w);
    assert PlaceOk(s, Self(s.w).id);
    if s.rest[Self(s.w).id].Fork? { TreeFork(s, t); } else { TreeMove(s, t); }
  }

  lemma TreeCycle(s: State, t: TaskId)
    requires WorldOk(s.w) && CanStep(s) && s.w.phase.Idle? && TreeOk(s, t)
    ensures TreeOk(Next(s), t)
  {
    BoundDrain(s.w);
    DispatchKeepsCounts(Drain(s.w));
  }

  lemma KidsNext(s: State, t: TaskId, i: nat)
    requires StructInv(s) && JoinInv(s) && CanStep(s)
    ensures KidOk(Next(s), t, i)
  {
    assert KidOk(s, t, i);
    if s.w.phase.Idle? {
      KidsCycle(s, t, i);
    } else {
      ExecutingHasNotEnded(s.w);
      assert PositionOk(s.w, Self(s.w).id) && TreeOk(s, Self(s.w).id);
      if s.rest[Self(s.w).id].Fork? { KidsFork(s, t, i); } else { KidsMove(s, t, i); }
    }
  }

  lemma WorldCounts(s: State)
    requires s.w.phase.Busy? && CanStep(s)
    ensures Next(s).w.hist.base == s.w.hist.base
    ensures Next(s).w.loop.nextId == s.w.loop.nextId + if s.rest[Self(s.w).id].Fork? then 1 else 0
    ensures Next(s).kids.Keys == s.kids.Keys + if s.rest[Self(s.w).id].Fork? then {s.w.loop.nextId} else {}
  {
    NextIs(s);
    if !s.rest[Self(s.w).id].Fork? {
      SliceKeepsCounts(s.w, NextAct(s));
      assert Advanced(s, Self(s.w).id).kids == s.kids;
    }
  }

  lemma KidsSpawned(s: State)
    requires StructInv(s) && JoinInv(s) && CanStep(s)
    ensures forall t :: t in Next(s).kids ==> Spawned(Next(s).w, t)
  {
    if s.w.phase.Idle? {
      BoundDrain(s.w);
      DispatchKeepsCounts(Drain(s.w));
    } else {
      WorldCounts(s);
    }
  }

  lemma JoinNext(s: State)
    requires StructInv(s) && JoinInv(s) && CanStep(s)
    ensures JoinInv(Next(s))
  {
    forall t: TaskId, i: nat ensures KidOk(Next(s), t, i) { KidsNext(s, t, i); }
    forall t ensures TreeOk(Next(s), t) {
      assert TreeOk(s, t);
      if s.w.phase.Idle? { TreeCycle(s, t); } else { TreeNext(s, t); }
    }
    KidsSpawned(s);
  }

  // ------------------------------------------------------- main finishes last

  /** A task that has not ended keeps its parent from ending, and so up to main. */
  lemma {:induction false} MainFinishesLast(s: State, t: TaskId)
    requires StructInv(s) && JoinInv(s) && Spawned(s.w, t) && t !in s.w.hist.ended
    ensures s.w.hist.base !in s.w.hist.ended
    decreases t - s.w.hist.base
  {
    if t != s.w.hist.base {
      assert TreeOk(s, t);
      var p, f := s.parent[t], t - s.w.hist.base - 1;
      assert FutureOk(s.w, f);
      var i :| 0 <= i < |s.kids[p]| && s.kids[p][i] == f;
      assert KidOk(s, p, i);
      MainFinishesLast(s, p);
    }
  }

  lemma UnfinishedKeepsMain(s: State, d: World, i: nat)
    requires StructInv(s) && JoinInv(s)
    requires OrderInv(d) && EndInv(d) && d.hist == s.w.hist && d.loop.nextId == s.w.loop.nextId
    requires i < |All(d)| && All(d)[i].status != Done
    ensures s.w.hist.base !in s.w.hist.ended
  {
    MainFinishesLast(s, All(d)[i].id);
  }

  lemma DrainOk(s: State)
    requires StructInv(s) && s.w.phase.Idle? && CanStep(s)
    ensures WakesOnlyWaiting(s.w)
    ensures var d := Drain(s.w);
      && OrderInv(d) && EndInv(d) && Selecting(d) && All(d) == d.loop.tasks
      && d.hist == s.w.hist && d.loop.nextId == s.w.loop.nextId && d.loop.mainId == d.hist.base
      && DoCycle(s.w) == Dispatch(d)
  {
    EndDrain(s.w);
    BoundDrain(s.w);
  }

  /** What `checkOrphanedTasks` throws for. */
  lemma OrphanedBecause(w: World) returns (i: nat)
    requires Selecting(w) && Dispatch(w).phase.Orphaned?
    ensures Self(w).status == Done && Self(w).id == w.loop.mainId
    ensures i < |w.loop.tasks| && w.loop.tasks[i].status != Done
  {
    i :| 0 <= i < |w.loop.tasks| && w.loop.tasks[i].status != Done;
  }

  /** When main is cleaned up, no task is left unfinished. */
  lemma NeverOrphaned(s: State)
    requires StructInv(s) && JoinInv(s) && CanStep(s) && s.w.phase.Idle?
    ensures !Next(s).w.phase.Orphaned?
  {
    DrainOk(s);
    var d := Drain(s.w);
    if Dispatch(d).phase.Orphaned? {
      var i := OrphanedBecause(d);
      assert All(d)[d.loop.current].id in d.hist.ended;
      UnfinishedKeepsMain(s, d, i);
    }
  }
}
