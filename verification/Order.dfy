/** The order of the task list: tasks are listed and started in the order they were
    spawned, the cursor stays in range, and no spawned task is lost or deleted twice. */
module Order {
  import opened Options
  import opened LoopModel
  import opened Machine

  function All(w: World): seq<Task<FutureId>> {
    w.loop.tasks + w.loop.toStart
  }

  function Ids<F>(ts: seq<Task<F>>): (r: seq<TaskId>)
    ensures |r| == |ts| && forall i :: 0 <= i < |ts| ==> r[i] == ts[i].id
  {
    seq(|ts|, i requires 0 <= i < |ts| => ts[i].id)
  }

  /** The ids `from`, `from + 1`, ..., `n` of them. */
  function Range(from: TaskId, n: nat): (r: seq<TaskId>)
    ensures |r| == n && forall i :: 0 <= i < n ==> r[i] == from + i
  {
    seq(n, i requires 0 <= i < n => from + i)
  }

  // ------------------------------------------------------- the list, by itself

  /** `ts` is a line of tasks: first those started, all of them among the ids
      `base .. base + started`, in increasing order; then, without a gap up to
      `nextId`, those still to be started. */
  ghost predicate Line<F>(ts: seq<Task<F>>, base: TaskId, started: nat, nextId: TaskId) {
    var split := |ts| - (nextId - base - started);
    && 0 <= split <= |ts|
    && (forall i :: 0 <= i < split ==> ts[i].status != Init && base <= ts[i].id < base + started)
    && (forall i, j :: 0 <= i < j < split ==> ts[i].id < ts[j].id)
    && (forall i :: split <= i < |ts| ==> ts[i].status == Init && ts[i].id == nextId - |ts| + i)
  }

  /** Every id handed out belongs to exactly one listed or deleted task. */
  ghost predicate Conserved<F>(ts: seq<Task<F>>, deleted: seq<TaskId>, base: TaskId, nextId: TaskId) {
    base <= nextId && multiset(Ids(ts)) + multiset(deleted) == multiset(Range(base, nextId - base))
  }

  ghost predicate SameLine<F>(ts: seq<Task<F>>, us: seq<Task<F>>) {
    |ts| == |us| && forall i :: 0 <= i < |ts| ==>
      ts[i].id == us[i].id && (ts[i].status == Init <==> us[i].status == Init)
  }

  lemma LineSame<F>(ts: seq<Task<F>>, us: seq<Task<F>>, base: TaskId, started: nat, nextId: TaskId)
    requires Line(ts, base, started, nextId) && SameLine(ts, us)
    ensures Line(us, base, started, nextId)
  {}

  lemma ConservedSame<F>(ts: seq<Task<F>>, us: seq<Task<F>>, deleted: seq<TaskId>, base: TaskId, nextId: TaskId)
    requires Conserved(ts, deleted, base, nextId)
    requires |ts| == |us| && forall i :: 0 <= i < |ts| ==> ts[i].id == us[i].id
    ensures Conserved(us, deleted, base, nextId)
  {
    assert Ids(ts) == Ids(us);
  }

  lemma LineAppend<F>(ts: seq<Task<F>>, t: Task<F>, base: TaskId, started: nat, nextId: TaskId)
    requires Line(ts, base, started, nextId) && t.id == nextId && t.status == Init
    ensures Line(ts + [t], base, started, nextId + 1)
  {}

  lemma ConservedAppend<F>(ts: seq<Task<F>>, t: Task<F>, deleted: seq<TaskId>, base: TaskId, nextId: TaskId)
    requires Conserved(ts, deleted, base, nextId) && t.id == nextId
    ensures Conserved(ts + [t], deleted, base, nextId + 1)
  {
    assert Ids(ts + [t]) == Ids(ts) + [nextId];
    assert Range(base, nextId + 1 - base) == Range(base, nextId - base) + [nextId];
  }

  lemma RangeAppend(base: TaskId, n: nat)
    ensures Range(base, n + 1) == Range(base, n) + [base + n]
  {}

  lemma LineStarts<F>(ts: seq<Task<F>>, base: TaskId, started: nat, nextId: TaskId, s: Status)
    requires Line(ts, base, started, nextId) && s != Init
    requires base + started < nextId
    ensures var split := |ts| - (nextId - base - started);
      split < |ts| && ts[split].id == base + started &&
      Line(ts[split := ts[split].(status := s)], base, started + 1, nextId)
  {}

  lemma LineErase<F>(ts: seq<Task<F>>, c: nat, base: TaskId, started: nat, nextId: TaskId)
    requires Line(ts, base, started, nextId) && c < |ts| - (nextId - base - started)
    ensures Line(ts[..c] + ts[c + 1..], base, started, nextId)
  {
    var us := ts[..c] + ts[c + 1..];
    assert forall i :: 0 <= i < |us| ==> us[i] == if i < c then ts[i] else ts[i + 1];
  }

  lemma ConservedErase<F>(ts: seq<Task<F>>, c: nat, deleted: seq<TaskId>, base: TaskId, nextId: TaskId)
    requires Conserved(ts, deleted, base, nextId) && c < |ts|
    ensures Conserved(ts[..c] + ts[c + 1..], deleted + [ts[c].id], base, nextId)
  {
    assert Ids(ts) == Ids(ts[..c]) + [ts[c].id] + Ids(ts[c + 1..]);
    assert Ids(ts[..c] + ts[c + 1..]) == Ids(ts[..c]) + Ids(ts[c + 1..]);
  }

  // ------------------------------------------------------- the invariant

  /** Where the tasks that have not been started begin. */
  function Split(w: World): int {
    |All(w)| - (w.loop.nextId - w.hist.base - |w.hist.started|)
  }

  ghost predicate CursorOk(w: World) {
    && w.phase != Crashed
    && w.loop.current <= Split(w) <= |w.loop.tasks|
    && (w.phase.Busy? || w.phase.Saved? ==> w.loop.current < Split(w) && Self(w).status == Exec)
    && (w.loop.running <==> All(w) != [])
  }

  ghost predicate OrderInv(w: World) {
    && w.hist.base >= 0
    && Line(All(w), w.hist.base, |w.hist.started|, w.loop.nextId)
    && Conserved(All(w), w.hist.deleted, w.hist.base, w.loop.nextId)
    && w.hist.started == Range(w.hist.base, |w.hist.started|)
    && CursorOk(w)
  }

  /** What the wake tokens guarantee about the ids to wake. */
  ghost predicate WakesOnlyWaiting(w: World) {
    && AllListed(w.loop.tasks, w.loop.toWake)
    && forall i :: 0 <= i < |w.loop.tasks| && w.loop.tasks[i].id in w.loop.toWake ==> w.loop.tasks[i].status == Wait
  }

  lemma AllAt(w: World)
    ensures forall i :: 0 <= i < |w.loop.tasks| ==> All(w)[i] == w.loop.tasks[i]
  {}

  /** With nothing to be started, the listed tasks are all there are. */
  lemma NothingPending(w: World)
    requires w.loop.toStart == []
    ensures All(w) == w.loop.tasks
  {}

  /** Ids grow along the list and into the pending tasks. */
  lemma IdsIncrease(w: World)
    requires OrderInv(w)
    ensures forall i, j :: 0 <= i < j < |All(w)| ==> All(w)[i].id < All(w)[j].id
    ensures DistinctIds(w.loop.tasks)
  {
    AllAt(w);
  }

  lemma ConservedOne<F>(t: Task<F>)
    ensures Conserved([t], [], t.id, t.id + 1)
  {
    assert Ids([t]) == [t.id] && Range(t.id, 1) == [t.id];
  }

  lemma LineOne<F>(t: Task<F>)
    requires t.status == Init
    ensures Line([t], t.id, 0, t.id + 1) && Range(t.id, 0) == []
  {}

  lemma AllLaunched(w: World)
    requires w.loop == Launch(w.hist.base)
    ensures All(w) == [Task(w.hist.base, Init, None)]
  {}

  lemma OrderInitially(w: World)
    requires Initial(w)
    ensures OrderInv(w)
  {
    var main: Task<FutureId> := Task(w.hist.base, Init, None);
    AllLaunched(w);
    LineOne(main);
    ConservedOne(main);
  }

  ghost predicate SameCounters(w: World, u: World) {
    && w.loop.nextId == u.loop.nextId && w.hist.base == u.hist.base
    && w.hist.started == u.hist.started && w.hist.deleted == u.hist.deleted
    && w.loop.running == u.loop.running
  }

  lemma OrderSame(w: World, u: World)
    requires OrderInv(w) && SameCounters(w, u) && SameLine(All(w), All(u)) && CursorOk(u)
    ensures OrderInv(u)
  {
    LineSame(All(w), All(u), w.hist.base, |w.hist.started|, w.loop.nextId);
    ConservedSame(All(w), All(u), w.hist.deleted, w.hist.base, w.loop.nextId);
  }

  /** Steps that touch neither ids nor statuses nor the cursor. */
  ghost predicate Quiet(w: World, u: World) {
    && SameCounters(w, u) && w.loop.toStart == u.loop.toStart && w.loop.current == u.loop.current
    && |w.loop.tasks| == |u.loop.tasks|
    && (forall i :: 0 <= i < |w.loop.tasks| ==>
         w.loop.tasks[i].id == u.loop.tasks[i].id && w.loop.tasks[i].status == u.loop.tasks[i].status)
    && (w.phase == u.phase || (w.phase.Busy? && u.phase.Saved?))
  }

  lemma QuietKeepsLine(w: World, u: World)
    requires Quiet(w, u)
    ensures SameLine(All(w), All(u))
  {
    AllAt(w);
    AllAt(u);
  }

  lemma OrderQuiet(w: World, u: World)
    requires OrderInv(w) && Quiet(w, u)
    ensures OrderInv(u)
  {
    QuietKeepsLine(w, u);
    AllAt(w);
    AllAt(u);
    OrderSame(w, u);
  }

  lemma AllAppend(w: World, u: World, t: Task<FutureId>)
    requires u.loop.tasks == w.loop.tasks && u.loop.toStart == w.loop.toStart + [t]
    ensures All(u) == All(w) + [t]
  {}

  /** A task is appended to those still to be started. */
  lemma OrderAppend(w: World, u: World, t: Task<FutureId>)
    requires OrderInv(w) && w.phase == u.phase && t.id == w.loop.nextId && t.status == Init
    requires u.loop.tasks == w.loop.tasks && u.loop.toStart == w.loop.toStart + [t]
    requires u.loop.nextId == w.loop.nextId + 1
    requires u.loop.current == w.loop.current && u.loop.running && w.loop.running
    requires u.hist == w.hist
    ensures OrderInv(u)
  {
    AllAppend(w, u, t);
    LineAppend(All(w), t, w.hist.base, |w.hist.started|, w.loop.nextId);
    ConservedAppend(All(w), t, w.hist.deleted, w.hist.base, w.loop.nextId);
  }

  lemma OrderSpawn(w: World, wraps: bool)
    requires OrderInv(w) && InSlice(w)
    ensures OrderInv(DoSpawn(w, wraps))
  {
    var u := DoSpawn(w, wraps);
    OrderAppend(w, u, u.loop.toStart[|w.loop.toStart|]);
  }

  /** The current task leaves its slice; the cursor moves or stays. */
  ghost predicate Leaves(w: World, u: World, s: Status) {
    && SameCounters(w, u) && u.loop.toStart == w.loop.toStart && w.loop.current < |w.loop.tasks|
    && u.loop.tasks == w.loop.tasks[w.loop.current := Self(w).(status := s)]
    && (if s == Done && u.loop.current == w.loop.current then u.phase.Idle? || u.phase.Escaped?
        else u.loop.current == w.loop.current + 1 && u.phase.Idle?)
  }

  lemma OrderLeaves(w: World, u: World, s: Status)
    requires OrderInv(w) && (w.phase.Busy? || w.phase.Saved?) && Leaves(w, u, s) && s != Init
    ensures OrderInv(u)
  {
    AllAt(w);
    assert |All(u)| == |All(w)|;
    assert forall i :: 0 <= i < |All(w)| && i != w.loop.current ==> All(w)[i] == All(u)[i];
    OrderSame(w, u);
  }

  /** What the drain makes of each task. */
  lemma DrainAt(w: World, i: nat)
    requires OrderInv(w) && WakesOnlyWaiting(w) && i < |All(w)|
    ensures |Drain(w).loop.tasks| == |All(w)|
    ensures Drain(w).loop.tasks[i] ==
      if i < |w.loop.tasks| && All(w)[i].id in w.loop.toWake then All(w)[i].(status := Exec) else All(w)[i]
  {
    if i < |w.loop.tasks| {
      IdsIncrease(w);
      WakeAllAt(w.loop.tasks, w.loop.toWake, i);
    }
  }

  /** Draining lists the pending tasks and turns exactly the tasks to wake, all waiting, to EXEC. */
  lemma OrderDrain(w: World)
    requires OrderInv(w) && w.phase.Idle? && WakesOnlyWaiting(w) && w.loop.running
    ensures OrderInv(Drain(w)) && Drain(w).loop.toStart == [] && Drain(w).loop.current < |Drain(w).loop.tasks|
    ensures |Drain(w).loop.tasks| == |All(w)|
    ensures forall i :: 0 <= i < |All(w)| ==> (Drain(w).loop.tasks[i] ==
      if i < |w.loop.tasks| && All(w)[i].id in w.loop.toWake then All(w)[i].(status := Exec) else All(w)[i])
  {
    var u := Drain(w);
    forall i | 0 <= i < |All(w)|
      ensures |u.loop.tasks| == |All(w)|
      ensures (u.loop.tasks[i] ==
        if i < |w.loop.tasks| && All(w)[i].id in w.loop.toWake then All(w)[i].(status := Exec) else All(w)[i])
    {
      DrainAt(w, i);
    }
    AllAt(w);
    NothingPending(u);
    OrderSame(w, u);
  }

  /** `Drained`: what `processSync` leaves behind. */
  ghost predicate Selecting(w: World) {
    w.phase.Idle? && w.loop.running && w.loop.toStart == [] && w.loop.current < |w.loop.tasks|
  }

  /** A task to be started is the first of those, and the oldest not yet started. */
  lemma NextToStart(w: World)
    requires OrderInv(w) && Selecting(w) && Self(w).status == Init
    ensures All(w) == w.loop.tasks && w.hist.base + |w.hist.started| < w.loop.nextId
    ensures w.loop.current == Split(w) && Self(w).id == w.hist.base + |w.hist.started|
  {
    NothingPending(w);
  }

  lemma LineStart(w: World)
    requires Selecting(w) && Line(w.loop.tasks, w.hist.base, |w.hist.started|, w.loop.nextId)
    requires w.loop.current == |w.loop.tasks| - (w.loop.nextId - w.hist.base - |w.hist.started|)
    ensures Line(Start(w).loop.tasks, w.hist.base, |w.hist.started| + 1, w.loop.nextId)
  {
    LineStarts(w.loop.tasks, w.hist.base, |w.hist.started|, w.loop.nextId, Exec);
  }

  lemma ConservedStart(w: World)
    requires Selecting(w) && Conserved(w.loop.tasks, w.hist.deleted, w.hist.base, w.loop.nextId)
    ensures Conserved(Start(w).loop.tasks, w.hist.deleted, w.hist.base, w.loop.nextId)
  {
    ConservedSame(w.loop.tasks, Start(w).loop.tasks, w.hist.deleted, w.hist.base, w.loop.nextId);
  }

  lemma OrderStart(w: World)
    requires OrderInv(w) && Selecting(w) && Self(w).status == Init
    ensures OrderInv(Start(w))
  {
    NextToStart(w);
    NothingPending(Start(w));
    LineStart(w);
    ConservedStart(w);
    RangeAppend(w.hist.base, |w.hist.started|);
  }

  lemma OrderResume(w: World)
    requires OrderInv(w) && Selecting(w) && Self(w).status == Exec
    ensures OrderInv(Resume(w))
  {
    var u := Resume(w);
    assert All(w) == w.loop.tasks && All(u) == u.loop.tasks;
    OrderSame(w, u);
  }

  lemma OrderSkip(w: World)
    requires OrderInv(w) && Selecting(w) && Self(w).status == Wait
    ensures OrderInv(w.(loop := Advance(w.loop)))
  {
    var u := w.(loop := Advance(w.loop));
    assert All(w) == w.loop.tasks && All(u) == u.loop.tasks;
    OrderSame(w, u);
  }

  /** What a clean-up that throws nothing does to the list. */
  lemma CleanUpErases(w: World)
    requires w.loop.current < |w.loop.tasks| && CleanUp(w).phase != Orphaned
    ensures var u, c := CleanUp(w), w.loop.current;
      && u.loop.tasks == w.loop.tasks[..c] + w.loop.tasks[c + 1..]
      && u.loop.running == (w.loop.running && u.loop.tasks != [])
      && u.phase == w.phase && u.loop.toStart == w.loop.toStart && u.loop.current == c && u.loop.nextId == w.loop.nextId
      && u.hist.base == w.hist.base && u.hist.started == w.hist.started
      && u.hist.deleted == w.hist.deleted + [Self(w).id]
  {}

  lemma OrderErased(w: World, u: World)
    requires OrderInv(w) && Selecting(w) && Self(w).status == Done && u.phase.Idle?
    requires u.loop.tasks == w.loop.tasks[..w.loop.current] + w.loop.tasks[w.loop.current + 1..]
    requires u.loop.toStart == [] && u.loop.current == w.loop.current && u.loop.nextId == w.loop.nextId
    requires u.loop.running == (u.loop.tasks != [])
    requires u.hist.base == w.hist.base && u.hist.started == w.hist.started
    requires u.hist.deleted == w.hist.deleted + [Self(w).id]
    ensures OrderInv(u)
  {
    assert All(w) == w.loop.tasks && All(u) == u.loop.tasks;
    LineErase(All(w), w.loop.current, w.hist.base, |w.hist.started|, w.loop.nextId);
    ConservedErase(All(w), w.loop.current, w.hist.deleted, w.hist.base, w.loop.nextId);
  }

  lemma OrderCleanUp(w: World)
    requires OrderInv(w) && Selecting(w) && Self(w).status == Done
    ensures OrderInv(CleanUp(w))
  {
    var u := CleanUp(w);
    if u.phase.Orphaned? {
      assert All(w) == All(u);
      OrderSame(w, u);
    } else {
      CleanUpErases(w);
      OrderErased(w, u);
    }
  }

  lemma OrderCycle(w: World)
    requires OrderInv(w) && w.phase.Idle? && WakesOnlyWaiting(w) && w.loop.running
    ensures OrderInv(DoCycle(w))
  {
    OrderDrain(w);
    var d := Drain(w);
    match Self(d).status
    case Init => OrderStart(d);
    case Exec => OrderResume(d);
    case Wait => OrderSkip(d);
    case Done => OrderCleanUp(d);
  }

  /** The steps by which a task gives control back. */
  predicate GivesBack(a: Act) {
    a.AwaitBlock? || a.Suspend? || a.RawWait? || a.Yield? || a.Exit? || a.Return? || a.Throw?
  }

  /** The status a task keeps when it gives control back. */
  function LeavingStatus(a: Act): Status {
    if a.Yield? then Exec else if a.Exit? || a.Return? || a.Throw? then Done else Wait
  }

  lemma GivingBackLeaves(w: World, a: Act)
    requires Allowed(w, a) && GivesBack(a)
    ensures Leaves(w, Step(w, a), LeavingStatus(a)) && (w.phase.Busy? || w.phase.Saved?)
  {}

  lemma OthersAreQuiet(w: World, a: Act)
    requires Allowed(w, a) && !GivesBack(a) && !a.Cycle? && !a.Spawn?
    ensures Quiet(w, Step(w, a))
  {}

  lemma OrderStep(w: World, a: Act)
    requires OrderInv(w) && Allowed(w, a) && (a.Cycle? ==> WakesOnlyWaiting(w))
    ensures OrderInv(Step(w, a))
  {
    if a.Cycle? {
      OrderCycle(w);
    } else if a.Spawn? {
      OrderSpawn(w, a.wraps);
    } else if GivesBack(a) {
      GivingBackLeaves(w, a);
      OrderLeaves(w, Step(w, a), LeavingStatus(a));
    } else {
      OthersAreQuiet(w, a);
      OrderQuiet(w, Step(w, a));
    }
  }
}
