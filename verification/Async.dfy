/** The operations tasks call: each acts on the current task of the loop. */
module Async {
  import opened Options
  import L = LoopModel
  import M = FutureModel
  import opened Runtime
  import opened Primitives

  /** `run` up to `runUntilCompleted`: on a loop that is new or was cleared, with both deferred lists
      empty, it makes what a run of the machine starts from. */
  method BeginRun(loop: EventLoop) returns (id: TaskId)
    requires loop.Valid()
    modifies loop`toStart, loop`taskIdCounter, loop`mainTaskId
    ensures loop.Valid() && id == old(loop.taskIdCounter) && loop.taskIdCounter == id + 1 && loop.mainTaskId == id
    ensures |loop.toStart| == |old(loop.toStart)| + 1 && loop.toStart[..|old(loop.toStart)|] == old(loop.toStart)
    ensures loop.tasks == [] && loop.current == 0 && loop.running && loop.toWake == [] && old(loop.toStart) == [] ==>
      loop.View() == L.Launch(id)
  {
    id := loop.AddTask(null);
    loop.SetMainTask(id);
  }

  method Exit(loop: EventLoop)
    requires loop.Valid() && loop.current < |loop.tasks|
    modifies loop`current, loop.tasks[loop.current]
    ensures loop.current == old(loop.current) + 1 && old(loop.tasks[loop.current]).state == L.Done
    ensures loop.Valid() && loop.View() == L.Advance(L.SetStatus(old(loop.View()), L.Done))
  {
    loop.SwitchOut(L.Done);
  }

  method Wait(loop: EventLoop)
    requires loop.Valid() && loop.current < |loop.tasks|
    modifies loop`current, loop.tasks[loop.current]
    ensures loop.current == old(loop.current) + 1 && old(loop.tasks[loop.current]).state == L.Wait
    ensures loop.Valid() && loop.View() == L.Advance(L.SetStatus(old(loop.View()), L.Wait))
  {
    loop.SwitchOut(L.Wait);
  }

  /** The task keeps its state. */
  method Yield(loop: EventLoop)
    requires loop.Valid() && loop.current < |loop.tasks|
    modifies loop`current
    ensures loop.current == old(loop.current) + 1
    ensures loop.Valid() && loop.View() == L.Advance(old(loop.View()))
  {
    loop.current := loop.current + 1;
  }

  method Notify(loop: EventLoop, id: TaskId)
    requires loop.Valid()
    modifies loop`toWake
    ensures loop.toWake == old(loop.toWake) + [id]
    ensures loop.Valid() && loop.View() == L.NotifyReady(old(loop.View()), [id])
  {
    loop.NotifyReady(id);
  }

  /** `task()`: a pending task, and the future bound to it. */
  method MakeTask<T>(loop: EventLoop, default: T) returns (f: Future<T>, id: TaskId)
    requires loop.Valid()
    modifies loop`toStart, loop`taskIdCounter
    ensures fresh(f) && fresh(f.state) && !f.state.completed && !f.state.cancelled && f.state.waiters == []
    ensures |loop.toStart| == |old(loop.toStart)| + 1 && loop.toStart[..|old(loop.toStart)|] == old(loop.toStart)
    ensures var t := loop.toStart[|old(loop.toStart)|];
      fresh(t) && t.id == id && t.state == L.Init && t.resultFuture == f.state
    ensures id == old(loop.taskIdCounter) && loop.taskIdCounter == id + 1
    ensures loop.Valid() && f.View() == M.Future(false, false, [], default)
    ensures loop.View() == L.AddTask(old(loop.View()), Some(f.state))
  {
    f := new Future(default);
    id := loop.AddTask(f.state);
  }

  /** The end of the worker that `task()` wraps around a function which returned `v`: the future
      is completed while the task still executes, then the task is DONE. */
  method ReturnFromTask<T>(loop: EventLoop, f: Future<T>, v: T)
    requires loop.Valid() && loop.current < |loop.tasks|
    modifies loop`toWake, loop.tasks[loop.current], f`result, f.state`completed
    ensures f.state.completed && f.result == v && loop.tasks[loop.current].state == L.Done
    ensures loop.toWake == old(loop.toWake) + f.state.waiters
    ensures loop.Valid() && f.View() == M.AfterComplete(old(f.View()), v)
    ensures loop.View() == L.SetStatus(L.NotifyReady(old(loop.View()), old(f.View()).waiters), L.Done)
  {
    f.Complete(v, loop);
    var rethrows := loop.WorkerDone(false, false);
  }

  datatype Exception = Cancelled | FailedToComplete

  /** How a stretch of `gather` ends. */
  datatype Gathered = Through | Blocked | Threw(why: Exception)

  /** What `await` on a future tells at once: `resumed` if `wait()` has just returned. */
  function Stops<T>(f: M.Future<T>, resumed: bool): (g: Gathered)
    ensures g.Through? <==> f.completed && !f.cancelled
    ensures g == Threw(Cancelled) <==> f.cancelled && (f.completed || resumed)
    ensures g == Threw(FailedToComplete) <==> resumed && !f.cancelled && !f.completed
  {
    if f.completed && !f.cancelled then Through
    else if !f.completed && !resumed then Blocked
    else if f.cancelled then Threw(Cancelled)
    else Threw(FailedToComplete)
  }

  /** `gather` from its `from`-th future on, until it is through, blocks or throws. If `resumed`,
      the task was blocked in the `await` of that future and `wait()` has returned. It passes a future
      only if it is completed and not cancelled. */
  method Gather<T>(futures: seq<Future<T>>, from: nat, resumed: bool, loop: EventLoop) returns (at: nat, end: Gathered)
    requires loop.Valid() && loop.current < |loop.tasks| && from <= |futures| && (resumed ==> from < |futures|)
    modifies loop`current, loop.tasks[loop.current], set f | f in futures :: f.state
    ensures loop.Valid() && from <= at <= |futures|
    ensures forall k :: from <= k < at ==> futures[k].state.completed && !futures[k].state.cancelled
    ensures end == Through <==> at == |futures|
    ensures end == Threw(Cancelled) <==>
      at < |futures| && futures[at].state.cancelled && (futures[at].state.completed || (resumed && at == from))
    ensures end == Threw(FailedToComplete) <==>
      at < |futures| && !futures[at].state.cancelled && !futures[at].state.completed && resumed && at == from
    ensures end == if at == |futures| then Through else Stops(old(futures[at].View()), resumed && at == from)
    ensures !end.Blocked? ==> loop.View() == old(loop.View()) && forall f :: f in futures ==> f.View() == old(f.View())
    ensures end.Blocked? ==>
      && futures[at].View() == M.AfterSaveWaiter(old(futures[at].View()), old(loop.tasks[loop.current].id))
      && loop.View() == L.Advance(L.SetStatus(old(loop.View()), L.Wait))
  {
    at := from;
    if resumed {
      var o := futures[at].AwaitLeave();
      if o.ThrewCancelled? { return at, Threw(Cancelled); }
      if o.ThrewFailed? { return at, Threw(FailedToComplete); }
      at := at + 1;
    }
    while at < |futures|
      invariant (if resumed then from + 1 else from) <= at <= |futures| && loop.Valid()
      invariant forall k :: from <= k < at ==> futures[k].state.completed && !futures[k].state.cancelled
      invariant unchanged(loop) && unchanged(loop.tasks[loop.current])
      invariant loop.View() == old(loop.View())
      invariant forall f :: f in futures ==> f.View() == old(f.View())
    {
      var o := futures[at].AwaitEnter(loop);
      if o.None? { return at, Blocked; }
      if o.value.ThrewCancelled? { return at, Threw(Cancelled); }
      at := at + 1;
    }
    end := Through;
  }
}
