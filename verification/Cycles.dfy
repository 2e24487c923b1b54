/** What one `cycle()` does, told by the history: which task it picks, what becomes of that task,
    when it throws, and where it leaves the cursor. */
module Cycles {
  import opened Options
  import opened LoopModel
  import opened Machine
  import opened Order
  import opened WakeTokens
  import opened Runs
  import opened Ownership

  /** The place a cycle picks: the cursor, or the front when the cursor is behind all tasks,
      listed and pending. */
  function Index(w: World): nat {
    if w.loop.current == |All(w)| then 0 else w.loop.current
  }

  /** The same tasks in the same order, and nothing deleted. */
  ghost predicate SameTasks(w: World, u: World) {
    && |All(u)| == |All(w)| && (forall k :: 0 <= k < |All(w)| ==> All(u)[k].id == All(w)[k].id)
    && u.loop.nextId == w.loop.nextId && u.hist.deleted == w.hist.deleted
    && u.hist.ended == w.hist.ended && u.loop.running == w.loop.running
  }

  /** The picked task, at `i`, has left the list and all the others are still there, in order. */
  ghost predicate WithoutTask(w: World, u: World, i: nat)
    requires i < |All(w)|
  {
    && |All(u)| == |All(w)| - 1
    && (forall k :: 0 <= k < |All(u)| ==> All(u)[k].id == All(w)[if k < i then k else k + 1].id)
    && u.loop.nextId == w.loop.nextId && u.hist.deleted == w.hist.deleted + [All(w)[i].id]
    && u.hist.ended == w.hist.ended && (u.loop.running <==> All(u) != [])
  }

  /** Some spawned task has not ended. */
  ghost predicate Unfinished(w: World) {
    exists t :: Spawned(w, t) && t !in w.hist.ended
  }

  /** `t` waits, and nobody has asked to wake it. */
  predicate Sleeps(w: World, t: Task<FutureId>) {
    t.status == Wait && t.id !in w.loop.toWake
  }

  /** What the cycle from `w` to `u` does with the task at `i`. A task that was not started is
      started, one that has ended is deleted, or main's end is reported while others are unfinished,
      one that sleeps is passed over, and any other one gets control back. */
  ghost predicate CycledAt(w: World, u: World, i: nat)
    requires i < |All(w)|
  {
    var t := All(w)[i].id;
    if t in w.hist.ended then
      if t == w.hist.base && Unfinished(w) then u.phase == Orphaned && SameTasks(w, u)
      else u.phase == Idle && u.loop.current == i && WithoutTask(w, u, i) && u.hist.started == w.hist.started
    else
      SameTasks(w, u) &&
      if Sleeps(w, All(w)[i]) then
        u.phase == Idle && u.loop.current == i + 1 && u.hist.started == w.hist.started
      else
        && u.phase == Busy && u.loop.current == i && i < |u.loop.tasks| && u.loop.tasks[i].id == t
        && u.hist.started == if t in w.hist.started then w.hist.started else w.hist.started + [t]
  }

  lemma PicksAt(w: World)
    requires Inv(w) && Allowed(w, Cycle)
    ensures WakesOnlyWaiting(w) && Index(w) < |All(w)|
    ensures var d := Drain(w);
      && OrderInv(d) && Selecting(d) && All(d) == d.loop.tasks && d.loop.current == Index(w)
      && SameTasks(w, d) && d.hist == w.hist && d.phase == Idle
    ensures var s := Self(Drain(w)).status; var t := All(w)[Index(w)];
      && (s == Done <==> t.status == Done) && (s == Init <==> t.status == Init) && (s == Wait <==> Sleeps(w, t))
  {
    TokensNameWaiting(w);
    OrderDrain(w);
    NothingPending(Drain(w));
    IdsIncrease(w);
    AllAt(w);
  }

  /** Ids of tasks that were started are those below the first that was not. */
  lemma StartedIff(w: World, i: nat)
    requires OrderInv(w) && i < |All(w)|
    ensures All(w)[i].id in w.hist.started <==> All(w)[i].status != Init
    ensures Spawned(w, All(w)[i].id)
  {
    var n, t := |w.hist.started|, All(w)[i].id;
    if w.hist.base <= t < w.hist.base + n { assert w.hist.started[t - w.hist.base] == t; }
  }

  /** `HasOrphans`, on a drained list, is about spawned tasks. */
  lemma OrphansAreUnfinished(w: World)
    requires OrderInv(w) && EndInv(w) && Selecting(w)
    ensures HasOrphans(w.loop) <==> Unfinished(w)
  {
    NothingPending(w);
    if HasOrphans(w.loop) {
      var i :| 0 <= i < |w.loop.tasks| && w.loop.tasks[i].status != Done;
      StartedIff(w, i);
      assert Spawned(w, All(w)[i].id) && All(w)[i].id !in w.hist.ended;
    }
    if Unfinished(w) {
      var t :| Spawned(w, t) && t !in w.hist.ended;
      var i := NotEndedIsListed(w, t);
      assert w.loop.tasks[i].status != Done;
    }
  }

  lemma DeletedAt(w: World)
    requires OrderInv(w) && EndInv(w) && Selecting(w) && Self(w).status == Done && !CleanUp(w).phase.Orphaned?
    ensures All(w) == w.loop.tasks && WithoutTask(w, CleanUp(w), w.loop.current)
    ensures var u := CleanUp(w); u.phase == Idle && u.loop.current == w.loop.current && u.hist.started == w.hist.started
  {
    CleanUpErases(w);
    CleanUpIsErased(w);
    ErasedAt(w, CleanUp(w));
  }

  lemma EndedAt(w: World)
    requires OrderInv(w) && EndInv(w) && Selecting(w) && w.loop.mainId == w.hist.base && Self(w).status == Done
    ensures w.loop.current < |All(w)| && CycledAt(w, Dispatch(w), w.loop.current)
  {
    var u := Dispatch(w);
    NothingPending(w);
    OrphansAreUnfinished(w);
    assert Self(w).id in w.hist.ended;
    if Self(w).id == w.hist.base && Unfinished(w) {
      assert u == w.(phase := Orphaned);
    } else {
      DeletedAt(w);
    }
  }

  lemma SelectedAt(w: World)
    requires OrderInv(w) && EndInv(w) && Selecting(w) && w.loop.toWake == [] && Self(w).status != Done
    ensures w.loop.current < |All(w)| && CycledAt(w, Dispatch(w), w.loop.current)
  {
    var u := Dispatch(w);
    NothingPending(w);
    NothingPending(u);
    StartedIff(w, w.loop.current);
    assert Self(w).id !in w.hist.ended;
  }

  /** Draining changes nothing in what is said about a cycle. */
  lemma CycledSame(w: World, d: World, u: World, i: nat)
    requires i < |All(w)| && SameTasks(w, d) && CycledAt(d, u, i) && d.hist == w.hist
    requires Sleeps(d, All(d)[i]) <==> Sleeps(w, All(w)[i])
    ensures CycledAt(w, u, i)
  {}

  /** The task a cycle picks, and what becomes of it. */
  lemma CycleAt(w: World)
    requires Inv(w) && EndInv(w) && Allowed(w, Cycle) && w.loop.mainId == w.hist.base
    ensures Index(w) < |All(w)| && CycledAt(w, Step(w, Cycle), Index(w))
  {
    PicksAt(w);
    EndDrain(w);
    var d := Drain(w);
    if Self(d).status == Done { EndedAt(d); } else { SelectedAt(d); }
    CycledSame(w, d, DoCycle(w), Index(w));
  }

  lemma UnfinishedIs(w: World)
    ensures Unfinished(w) <==> exists t :: w.hist.base <= t < w.loop.nextId && t !in w.hist.ended
  {
    if Unfinished(w) {
      var t :| Spawned(w, t) && t !in w.hist.ended;
    }
    if t :| w.hist.base <= t < w.loop.nextId && t !in w.hist.ended {
      assert Spawned(w, t);
    }
  }

  /** Over every run: a cycle throws `MainTaskExitedException` if and only if it picks main after
      main's end, while some spawned task has not ended. */
  lemma OrphanedIff(w: World, acts: seq<Act>)
    requires Initial(w) && AllowedRun(w, acts) && Allowed(Run(w, acts), Cycle)
    ensures var u := Run(w, acts);
      && Index(u) < |All(u)| && CycledAt(u, Step(u, Cycle), Index(u))
      && (Step(u, Cycle).phase.Orphaned? <==>
            && All(u)[Index(u)].id == w.hist.base && w.hist.base in u.hist.ended
            && exists t :: w.hist.base <= t < u.loop.nextId && t !in u.hist.ended)
  {
    var u := Run(w, acts);
    ReachableSound(w, acts);
    CycleAt(u);
    UnfinishedIs(u);
  }

  // ------------------------------------------------------- between two cycles

  /** The listed and pending tasks are the same, and the cursor is at `c`. */
  ghost predicate MovedTo(w: World, u: World, c: nat) {
    && u.loop.current == c && u.loop.nextId == w.loop.nextId && |All(u)| == |All(w)|
    && forall i :: 0 <= i < |All(w)| ==> All(u)[i].id == All(w)[i].id
  }

  lemma LeavesAt(w: World, u: World, s: Status)
    requires Leaves(w, u, s)
    ensures MovedTo(w, u, u.loop.current)
  {
    AllAt(w);
    AllAt(u);
  }

  lemma QuietAt(w: World, u: World)
    requires Quiet(w, u)
    ensures MovedTo(w, u, w.loop.current)
  {
    AllAt(w);
    AllAt(u);
  }

  /** Whether a step moves the cursor past the current task: if the task blocks, yields or exits.
      After a worker's return or exception the next cycle finds the same task there, ended. */
  predicate MovesOn(a: Act) {
    a.AwaitBlock? || a.Suspend? || a.RawWait? || a.Yield? || a.Exit?
  }

  lemma LeavingMoves(w: World, a: Act)
    requires Allowed(w, a) && GivesBack(a)
    ensures Step(w, a).loop.current == w.loop.current + if MovesOn(a) then 1 else 0
  {}

  lemma CursorMoves(w: World, a: Act)
    requires Allowed(w, a) && !a.Cycle? && !a.Spawn?
    ensures MovedTo(w, Step(w, a), w.loop.current + if MovesOn(a) then 1 else 0)
  {
    if GivesBack(a) {
      GivingBackLeaves(w, a);
      LeavingMoves(w, a);
      LeavesAt(w, Step(w, a), LeavingStatus(a));
    } else {
      OthersAreQuiet(w, a);
      QuietAt(w, Step(w, a));
    }
  }

  /** A new task is the last of all, with the next id, and the cursor stays. */
  lemma SpawnedLast(w: World, wraps: bool)
    requires Allowed(w, Spawn(wraps))
    ensures var u := Step(w, Spawn(wraps));
      && u.loop.current == w.loop.current && u.loop.nextId == w.loop.nextId + 1
      && All(u)[..|All(w)|] == All(w) && |All(u)| == |All(w)| + 1
      && All(u)[|All(w)|] == Task(w.loop.nextId, Init, if wraps then Some(|w.futures|) else None)
  {
    var u := Step(w, Spawn(wraps));
    AllAppend(w, u, u.loop.toStart[|w.loop.toStart|]);
  }

  /** How a step ends the current task. */
  function EndingOf(a: Act): Option<Ending> {
    if a.Return? then Some(Finished) else if a.Throw? then Some(Threw) else if a.Exit? then Some(Exited) else None
  }

  lemma EndsAfter(w: World, a: Act)
    requires Allowed(w, a) && !a.Cycle?
    ensures var u, e := Step(w, a), EndingOf(a);
      && u.hist.started == w.hist.started && u.hist.deleted == w.hist.deleted
      && (e.None? ==> u.hist.ended == w.hist.ended)
      && (e.Some? ==> w.loop.current < |w.loop.tasks| && u.hist.ended == w.hist.ended[Self(w).id := e.value])
  {}

  /** A task in its slice stays there until it gives control back. Its exception leaves the loop
      unless the loop goes on after exceptions. */
  lemma PhaseMoves(w: World, a: Act)
    requires Allowed(w, a) && !a.Cycle?
    ensures Step(w, a).phase ==
      if a.Throw? && !w.keepGoing then Escaped
      else if GivesBack(a) then Idle
      else if a.SaveWaiter? then Saved
      else w.phase
  {}

  lemma CycleEndsNothing(w: World)
    requires Inv(w) && EndInv(w) && Allowed(w, Cycle) && w.loop.mainId == w.hist.base
    ensures Step(w, Cycle).hist.ended == w.hist.ended && !Step(w, Cycle).phase.Escaped?
  {
    CycleAt(w);
  }

  ghost predicate SomeoneThrew(w: World) {
    exists t :: t in w.hist.ended && w.hist.ended[t] == Threw
  }

  /** An exception of a task has left the loop exactly if one ended so and that ends the loop. */
  ghost predicate EscapeOk(w: World) {
    w.phase.Escaped? <==> !w.keepGoing && SomeoneThrew(w)
  }

  lemma EscapeStep(w: World, a: Act)
    requires Sound(w) && Allowed(w, a) && EscapeOk(w)
    ensures EscapeOk(Step(w, a))
  {
    var u := Step(w, a);
    StepKeepsBase(w, a);
    if a.Cycle? {
      CycleEndsNothing(w);
    } else {
      EndsAfter(w, a);
      PhaseMoves(w, a);
      if GivesBack(a) {
        CurrentHasNotEnded(w, a);
        if a.Throw? { assert u.hist.ended[Self(w).id] == Threw; }
      }
      assert forall t :: t in w.hist.ended ==> t in u.hist.ended && u.hist.ended[t] == w.hist.ended[t];
    }
  }

  lemma {:induction false} EscapeRun(w: World, acts: seq<Act>)
    requires Sound(w) && EscapeOk(w) && AllowedRun(w, acts)
    ensures EscapeOk(Run(w, acts))
    decreases |acts|
  {
    if acts != [] {
      EscapeStep(w, acts[0]);
      StepKeepsSound(w, acts[0]);
      EscapeRun(Step(w, acts[0]), acts[1..]);
    }
  }

  /** Over every run: the loop was left by a task's exception if and only if a task threw and
      exceptions end the loop. */
  lemma EscapedIff(w: World, acts: seq<Act>)
    requires Initial(w) && AllowedRun(w, acts)
    ensures var u := Run(w, acts);
      u.phase.Escaped? <==> !w.keepGoing && exists t :: t in u.hist.ended && u.hist.ended[t] == Threw
  {
    SoundInitially(w);
    BaseIsFixed(w, acts);
    EscapeRun(w, acts);
  }
}
