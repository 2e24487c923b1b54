/** The runtime's objects: the event loop, its tasks, and the shared state of futures. Each
    method is proved against the functions of LoopModel.dfy and FutureModel.dfy on the values
    the objects hold.

    `cycle()` hands control to a task and gets it back by `longjmp`; its two halves, before
    and after, are the methods `CycleEnter` and `SwitchOut`/`WorkerDone`. */
module Runtime {
  import opened Options
  import L = LoopModel
  import M = FutureModel

  type TaskId = L.TaskId

  class FutureState {
    var completed: bool
    var cancelled: bool
    var waiters: seq<TaskId>

    /** The state as a future without a value. */
    ghost function View(): M.Future<()>
      reads this
    {
      M.Future(completed, cancelled, waiters, ())
    }

    constructor ()
      ensures !completed && !cancelled && waiters == []
      ensures View() == M.Future(false, false, [], ())
    {
      completed, cancelled, waiters := false, false, [];
    }

    method SaveWaiter(id: TaskId)
      modifies this`waiters
      ensures waiters == old(waiters) + [id]
      ensures View() == M.AfterSaveWaiter(old(View()), id)
    {
      waiters := waiters + [id];
    }

    /** Notifies all waiters in order; the list is kept. */
    method NotifyAll(loop: EventLoop)
      modifies loop`toWake
      ensures loop.toWake == old(loop.toWake) + waiters
    {
      for i := 0 to |waiters|
        invariant loop.toWake == old(loop.toWake) + waiters[..i]
      {
        loop.NotifyReady(waiters[i]);
      }
    }

    method Complete(loop: EventLoop)
      modifies this`completed, loop`toWake
      ensures completed && View() == M.AfterComplete(old(View()), ())
      ensures loop.toWake == old(loop.toWake) + old(waiters)
    {
      completed := true;
      NotifyAll(loop);
    }

    method Cancel(loop: EventLoop)
      modifies this`cancelled, loop`toWake
      ensures cancelled && View() == M.AfterCancel(old(View()))
      ensures loop.toWake == old(loop.toWake) + old(waiters)
    {
      cancelled := true;
      NotifyAll(loop);
    }
  }

  /** A pointer that may be null, as a value. */
  function Bound(f: FutureState?): Option<FutureState> {
    if f == null then None else var g: FutureState := f; Some(g)
  }

  class Task {
    const id: TaskId
    var state: L.Status
    var resultFuture: FutureState?

    constructor (id: TaskId, future: FutureState?)
      ensures this.id == id && state == L.Init && resultFuture == future
    {
      this.id, state, resultFuture := id, L.Init, future;
    }

    ghost function View(): L.Task<FutureState>
      reads this
    {
      L.Task(id, state, Bound(resultFuture))
    }
  }

  ghost function Views(ts: seq<Task>): (r: seq<L.Task<FutureState>>)
    reads ts
    ensures |r| == |ts| && forall i :: 0 <= i < |ts| ==> r[i] == ts[i].View()
  {
    seq(|ts|, i requires 0 <= i < |ts| reads ts => ts[i].View())
  }

  lemma ViewsConcat(a: seq<Task>, b: seq<Task>)
    ensures Views(a + b) == Views(a) + Views(b)
  {}

  /** No task is listed twice. */
  ghost predicate AllDistinct(ts: seq<Task>, pending: seq<Task>) {
    && (forall i, j :: 0 <= i < j < |ts| ==> ts[i] != ts[j])
    && (forall i, j :: 0 <= i < j < |pending| ==> pending[i] != pending[j])
    && (forall i, j :: 0 <= i < |ts| && 0 <= j < |pending| ==> ts[i] != pending[j])
  }

  lemma DistinctErase(ts: seq<Task>, pending: seq<Task>, c: nat)
    requires AllDistinct(ts, pending) && c < |ts|
    ensures AllDistinct(ts[..c] + ts[c + 1..], pending)
  {
    var us := ts[..c] + ts[c + 1..];
    assert forall i :: 0 <= i < |us| ==> us[i] == ts[if i < c then i else i + 1];
  }

  lemma DistinctJoin(ts: seq<Task>, pending: seq<Task>)
    requires AllDistinct(ts, pending)
    ensures AllDistinct(ts + pending, [])
  {}

  lemma ViewsErase(ts: seq<Task>, c: nat)
    requires c < |ts|
    ensures Views(ts[..c] + ts[c + 1..]) == Views(ts)[..c] + Views(ts)[c + 1..]
  {}

  datatype Entered =
    | Control(task: Task)      // to be started or resumed
    | Skipped                  // it waits
    | CleanedUp
    | OrphansLeft              // MainTaskExitedException

  class EventLoop {
    var tasks: seq<Task>
    var current: nat
    var running: bool
    var toWake: seq<TaskId>
    var toStart: seq<Task>
    var taskIdCounter: TaskId
    var mainTaskId: TaskId

    ghost predicate Valid()
      reads this
    {
      AllDistinct(tasks, toStart)
    }

    ghost function View(): L.Loop<FutureState>
      reads this, tasks, toStart
    {
      L.Loop(Views(tasks), current, running, toWake, Views(toStart), taskIdCounter, mainTaskId)
    }

    constructor ()
      ensures tasks == [] && current == 0 && running && toWake == [] && toStart == []
      ensures taskIdCounter == 0 && mainTaskId == 0
      ensures Valid() && View() == L.Loop([], 0, true, [], [], 0, 0)
    {
      tasks, current, running, toWake, toStart, taskIdCounter, mainTaskId := [], 0, true, [], [], 0, 0;
    }

    method Clear()
      requires Valid()
      modifies `tasks, `current, `running, `mainTaskId
      ensures tasks == [] && current == 0 && running && mainTaskId == L.INVALID_TASK_ID
      ensures Valid() && View() == L.Clear(old(View()))
    {
      tasks, current, running, mainTaskId := [], 0, true, L.INVALID_TASK_ID;
    }

    method AddTask(future: FutureState?) returns (id: TaskId)
      requires Valid()
      modifies `toStart, `taskIdCounter
      ensures Valid() && id == old(taskIdCounter) && taskIdCounter == id + 1
      ensures |toStart| == |old(toStart)| + 1 && toStart[..|old(toStart)|] == old(toStart)
      ensures var t := toStart[|old(toStart)|];
        fresh(t) && t.id == id && t.state == L.Init && t.resultFuture == future
      ensures View() == L.AddTask(old(View()), Bound(future))
    {
      id := taskIdCounter;
      taskIdCounter := taskIdCounter + 1;
      var t := new Task(id, future);
      toStart := toStart + [t];
      assert Views(toStart) == old(Views(toStart)) + [t.View()];
    }

    /** The i-th listed task is the first called `id`. */
    ghost predicate FirstNamed(i: nat, id: TaskId)
      requires i < |tasks|
      reads this
    {
      tasks[i].id == id && forall j :: 0 <= j < i ==> tasks[j].id != id
    }

    /** The first listed task called `id`. */
    method GetTask(id: TaskId) returns (t: Task?)
      ensures t == null <==> forall i :: 0 <= i < |tasks| ==> tasks[i].id != id
      ensures t != null ==> exists i :: 0 <= i < |tasks| && FirstNamed(i, id) && t == tasks[i]
      ensures var i := L.IndexOf(Views(tasks), id);
        if i < |tasks| then t == tasks[i] else t == null
    {
      ghost var vs := Views(tasks);
      for k := 0 to |tasks|
        invariant forall j :: 0 <= j < k ==> vs[j].id != id
      {
        if tasks[k].id == id {
          assert FirstNamed(k, id);
          return tasks[k];
        }
      }
      return null;
    }

    method NotifyReady(id: TaskId)
      modifies this`toWake
      ensures toWake == old(toWake) + [id]
    {
      toWake := toWake + [id];
    }

    method SetMainTask(id: TaskId)
      modifies `mainTaskId
      ensures mainTaskId == id
    {
      mainTaskId := id;
    }

    method CheckOrphanedTasks() returns (throws: bool)
      ensures throws <==> exists t :: t in tasks + toStart && t.state != L.Done
      ensures throws <==> L.HasOrphans(View())
    {
      ghost var l := View();
      for i := 0 to |tasks|
        invariant forall j :: 0 <= j < i ==> l.tasks[j].status == L.Done
      {
        if tasks[i].state != L.Done {
          assert l.tasks[i].status != L.Done && tasks[i] in tasks + toStart;
          return true;
        }
      }
      for i := 0 to |toStart|
        invariant forall j :: 0 <= j < i ==> l.toStart[j].status == L.Done
      {
        if toStart[i].state != L.Done {
          assert l.toStart[i].status != L.Done && toStart[i] in tasks + toStart;
          return true;
        }
      }
      return false;
    }

    /** Sets the named task to EXEC. */
    method WakeTask(id: TaskId)
      requires Valid() && L.Listed(Views(tasks), id)
      modifies tasks
      ensures Views(tasks) == L.Wake(old(Views(tasks)), id) && Views(toStart) == old(Views(toStart))
    {
      var t := GetTask(id);
      ghost var i := L.IndexOf(Views(tasks), id);
      assert tasks[i] == t;
      t.state := L.Exec;
    }

    method WakeListed()
      requires Valid() && L.AllListed(Views(tasks), toWake)
      modifies tasks
      ensures Views(tasks) == L.WakeAll(old(Views(tasks)), toWake) && Views(toStart) == old(Views(toStart))
    {
      ghost var before := Views(tasks);
      for k := 0 to |toWake|
        invariant Views(toStart) == old(Views(toStart))
        invariant L.AllListed(Views(tasks), toWake[k..])
        invariant L.WakeAll(Views(tasks), toWake[k..]) == L.WakeAll(before, toWake)
      {
        L.WakeKeepsListed(Views(tasks), toWake[k..]);
        assert toWake[k..][1..] == toWake[k + 1..];
        assert L.Listed(Views(tasks), toWake[k..][0]);
        WakeTask(toWake[k]);
      }
      assert toWake[|toWake|..] == [];
    }

    method ProcessSync()
      requires Valid() && L.AllListed(Views(tasks), toWake)
      modifies `tasks, `toWake, `toStart, tasks
      ensures Valid() && View() == L.ProcessSync(old(View()))
      ensures tasks == old(tasks) + old(toStart) && toWake == [] && toStart == []
      ensures forall t :: t in tasks ==> t.resultFuture == old(t.resultFuture)
    {
      WakeListed();
      toWake := [];
      ViewsConcat(tasks, toStart);
      DistinctJoin(tasks, toStart);
      tasks := tasks + toStart;
      toStart := [];
    }

    /** `cleanUpTask` on the current task, which is not checked for being main here. */
    method EraseCurrent()
      requires Valid() && current < |tasks|
      modifies `tasks, `running
      ensures tasks == old(tasks[..current] + tasks[current + 1..]) && running == (old(running) && tasks != [])
      ensures Valid() && View() == L.Erase(old(View()))
    {
      ViewsErase(tasks, current);
      DistinctErase(tasks, toStart, current);
      tasks := tasks[..current] + tasks[current + 1..];
      if |tasks| == 0 {
        running := false;
      }
    }

    /** Who waits for a future that cleaning up will cancel. */
    static ghost function WaitersToCancel(f: FutureState?): seq<TaskId>
      reads f
    {
      if f != null && !f.completed then f.waiters else []
    }

    /** What became of the current task `t` of `l`, in terms of LoopModel.dfy: it got control, was passed
        over or was cleaned up, where `waiters` are those of the future that was cancelled. */
    ghost predicate Dispatched(l: L.Loop<FutureState>, t: Task, waiters: seq<TaskId>, e: Entered)
      reads this, tasks, toStart
    {
      l.current < |l.tasks| &&
      match l.tasks[l.current].status
      case Init => e == Control(t) && View() == L.SetStatus(l, L.Exec)
      case Exec => e == Control(t) && View() == l
      case Wait => e == Skipped && View() == L.Advance(l)
      case Done =>
        if L.ChecksOrphans(l, t.id) && L.HasOrphans(l) then e == OrphansLeft && View() == l
        else e == CleanedUp && View() == L.Erase(L.NotifyReady(l, waiters))
    }

    /** What cleaning up does to the future of the task: an uncompleted one is cancelled,
        unless the clean-up threw. */
    static twostate predicate FutureCleanedUp(f: FutureState?, throws: bool)
      reads f
    {
      f != null ==>
        && f.completed == old(f.completed) && f.waiters == old(f.waiters)
        && f.cancelled == (old(f.cancelled) || (!throws && !old(f.completed)))
    }

    /** A future that is not completed is cancelled, even if it was before. */
    method CancelUnfinished(f: FutureState?)
      requires Valid()
      modifies this`toWake, f
      ensures Valid()
      ensures f != null ==> f.completed == old(f.completed) && f.waiters == old(f.waiters)
      ensures f != null ==> f.cancelled == (old(f.cancelled) || !f.completed)
      ensures toWake == old(toWake) + if f != null && !f.completed then f.waiters else []
      ensures if f != null && !f.completed then View() == L.NotifyReady(old(View()), f.waiters)
              else View() == old(View())
    {
      if f != null && !f.completed {
        f.Cancel(this);
      }
    }

    method CleanUpTask() returns (throws: bool)
      requires Valid() && current < |tasks|
      modifies `tasks, `running, `toWake, tasks[current].resultFuture
      ensures Valid()
      ensures throws <==>
        && mainTaskId != L.INVALID_TASK_ID && mainTaskId == old(tasks[current].id)
        && exists t :: t in old(tasks + toStart) && old(t.state) != L.Done
      ensures throws ==> unchanged(this)
      ensures !throws ==>
        && tasks == old(tasks[..current] + tasks[current + 1..]) && running == (old(running) && tasks != [])
        && toWake == old(toWake) + old(WaitersToCancel(tasks[current].resultFuture))
      ensures FutureCleanedUp(old(tasks[current].resultFuture), throws)
      ensures throws <==> old(L.ChecksOrphans(View(), tasks[current].id) && L.HasOrphans(View()))
      ensures throws ==> View() == old(View())
      ensures !throws ==>
        View() == L.Erase(L.NotifyReady(old(View()), old(WaitersToCancel(tasks[current].resultFuture))))
    {
      var task := tasks[current];
      throws := false;
      if mainTaskId != L.INVALID_TASK_ID && mainTaskId == task.id {
        throws := CheckOrphanedTasks();
        if throws { return; }
      }
      CancelUnfinished(task.resultFuture);
      EraseCurrent();
    }

    method SetCurrentState(s: L.Status)
      requires Valid() && current < |tasks|
      modifies tasks[current]
      ensures tasks[current].state == s
      ensures Valid() && View() == L.SetStatus(old(View()), s)
    {
      tasks[current].state := s;
      assert Views(tasks) == L.SetStatus(old(View()), s).tasks;
      assert Views(toStart) == old(Views(toStart));
    }

    /** What is decided about the picked task: see `CycleEnter`. */
    method Dispatch() returns (e: Entered)
      requires Valid() && current < |tasks|
      modifies `tasks, `running, `toWake, `current, tasks[current], tasks[current].resultFuture
      ensures Valid()
      ensures old(tasks[current].state) == L.Init ==>
        e == Control(old(tasks[current])) && unchanged(this) && tasks[current].state == L.Exec
      ensures old(tasks[current].state) == L.Exec ==>
        e == Control(old(tasks[current])) && unchanged(this, old(tasks[current]))
      ensures old(tasks[current].state) == L.Wait ==>
        && e == Skipped && tasks == old(tasks) && current == old(current) + 1 && unchanged(old(tasks[current]))
        && toWake == old(toWake) && running == old(running)
      ensures old(tasks[current].state) == L.Done ==> current == old(current) && unchanged(old(tasks[current]))
      ensures old(tasks[current].state) == L.Done ==>
        (e == OrphansLeft <==>
          && mainTaskId != L.INVALID_TASK_ID && mainTaskId == old(tasks[current].id)
          && exists t :: t in old(tasks + toStart) && old(t.state) != L.Done)
      ensures old(tasks[current].state) == L.Done ==>
        if e == OrphansLeft then unchanged(this)
        else
          && e == CleanedUp
          && tasks == old(tasks[..current] + tasks[current + 1..]) && running == (old(running) && tasks != [])
          && toWake == old(toWake) + old(WaitersToCancel(tasks[current].resultFuture))
      ensures FutureCleanedUp(old(tasks[current].resultFuture), !e.CleanedUp?)
      ensures Dispatched(old(View()), old(tasks[current]), old(WaitersToCancel(tasks[current].resultFuture)), e)
    {
      var task := tasks[current];
      match task.state
      case Init =>
        SetCurrentState(L.Exec);
        e := Control(task);
      case Done =>
        var throws := CleanUpTask();
        e := if throws then OrphansLeft else CleanedUp;
      case Exec =>
        e := Control(task);
      case Wait =>
        current := current + 1;
        e := Skipped;
    }

    /** Some task is listed or pending, and the cursor is not beyond their end. */
    ghost predicate CanPick()
      reads this
    {
      tasks + toStart != [] && current <= |tasks| + |toStart|
    }

    /** The task at the cursor once the pending tasks are listed behind the others. */
    ghost function PickedTask(): Task
      requires CanPick()
      reads this
    {
      (tasks + toStart)[if current == |tasks| + |toStart| then 0 else current]
    }

    /** `processSync`, and the wrap of the cursor. */
    method Pick()
      requires Valid() && L.AllListed(Views(tasks), toWake)
      requires CanPick()
      modifies `tasks, `toWake, `toStart, `current, tasks
      ensures Valid() && View() == L.Drained(old(View())) && current < |tasks|
      ensures tasks == old(tasks) + old(toStart) && toWake == [] && toStart == []
      ensures current == if old(current) == |tasks| then 0 else old(current)
      ensures forall t :: t in tasks ==> t.resultFuture == old(t.resultFuture)
    {
      ProcessSync();
      if current == |tasks| {
        current := 0;
      }
    }

    /** The first half of `cycle()`: wakes and lists tasks, picks one, and either deals with
        it or leaves control to it. */
    method CycleEnter() returns (e: Entered)
      requires Valid() && L.AllListed(Views(tasks), toWake)
      requires CanPick()
      modifies `tasks, `current, `running, `toWake, `toStart, tasks, toStart, PickedTask().resultFuture
      ensures Valid()
      ensures var waiters := old(WaitersToCancel(PickedTask().resultFuture));
        Dispatched(L.Drained(old(View())), old(PickedTask()), waiters, e)
      ensures FutureCleanedUp(old(PickedTask().resultFuture), !e.CleanedUp?)
      ensures old(PickedTask()).resultFuture == old(PickedTask().resultFuture)
    {
      Pick();
      ghost var d := View();
      var t := tasks[current];
      assert t == old(PickedTask()) && t in old(tasks) + old(toStart);
      assert d == L.Drained(old(View())) && d.tasks[d.current] == t.View();
      e := Dispatch();
    }

    /** `yield`, `wait` and `exit` give control back with a state set: the cursor moves. */
    method SwitchOut(s: L.Status)
      requires Valid() && current < |tasks|
      modifies `current, tasks[current]
      ensures current == old(current) + 1 && old(tasks[current]).state == s
      ensures Valid() && View() == L.Advance(L.SetStatus(old(View()), s))
    {
      SetCurrentState(s);
      current := current + 1;
    }

    /** The worker returned or threw: the cursor stays. An exception leaves the loop
        unless `keepGoing`, which is ASYNC_CONTINUE_ON_TASK_EXC. */
    method WorkerDone(threw: bool, keepGoing: bool) returns (rethrows: bool)
      requires Valid() && current < |tasks|
      modifies tasks[current]
      ensures tasks[current].state == L.Done
      ensures Valid() && View() == L.SetStatus(old(View()), L.Done)
      ensures rethrows <==> threw && !keepGoing
    {
      SetCurrentState(L.Done);
      return threw && !keepGoing;
    }
  }
}
