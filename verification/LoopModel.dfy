/** The scheduler state of `EventLoop` as a value, and what each of its operations
    computes on that value. `F` names a future: a future's number in the machine of
    Machine.dfy, a `FutureState` reference in the classes of Runtime.dfy. */
module LoopModel {
  import opened Options

  type TaskId = int

  const INVALID_TASK_ID: TaskId := -1

  datatype Status = Init | Exec | Wait | Done

  datatype Task<F> = Task(id: TaskId, status: Status, result: Option<F>)

  datatype Loop<F> = Loop(
    tasks: seq<Task<F>>,
    current: nat,
    running: bool,
    toWake: seq<TaskId>,
    toStart: seq<Task<F>>,
    nextId: TaskId,
    mainId: TaskId)

  /** Position of the first task called `id`, or `|tasks|` when there is none. */
  function IndexOf<F>(tasks: seq<Task<F>>, id: TaskId): (i: nat)
    ensures i <= |tasks|
    ensures i < |tasks| ==> tasks[i].id == id
    ensures forall j :: 0 <= j < i ==> tasks[j].id != id
  {
    if tasks == [] || tasks[0].id == id then 0 else 1 + IndexOf(tasks[1..], id)
  }

  predicate Listed<F>(tasks: seq<Task<F>>, id: TaskId) {
    exists i :: 0 <= i < |tasks| && tasks[i].id == id
  }

  predicate AllListed<F>(tasks: seq<Task<F>>, ids: seq<TaskId>) {
    forall k :: 0 <= k < |ids| ==> Listed(tasks, ids[k])
  }

  function Wake<F>(tasks: seq<Task<F>>, id: TaskId): (r: seq<Task<F>>)
    requires Listed(tasks, id)
    ensures |r| == |tasks|
    ensures forall i :: 0 <= i < |tasks| ==> r[i].id == tasks[i].id && r[i].result == tasks[i].result
  {
    var i := IndexOf(tasks, id);
    tasks[i := tasks[i].(status := Exec)]
  }

  lemma WakeKeepsListed<F>(tasks: seq<Task<F>>, ids: seq<TaskId>)
    requires ids != [] && AllListed(tasks, ids)
    ensures AllListed(Wake(tasks, ids[0]), ids[1..])
  {
    var woken := Wake(tasks, ids[0]);
    forall k | 0 <= k < |ids[1..]| ensures Listed(woken, ids[1..][k]) {
      assert Listed(tasks, ids[k + 1]);
      var i :| 0 <= i < |tasks| && tasks[i].id == ids[k + 1];
      assert woken[i].id == ids[k + 1];
    }
  }

  function WakeAll<F>(tasks: seq<Task<F>>, ids: seq<TaskId>): (r: seq<Task<F>>)
    requires AllListed(tasks, ids)
    ensures |r| == |tasks|
    ensures forall i :: 0 <= i < |tasks| ==> r[i].id == tasks[i].id && r[i].result == tasks[i].result
    decreases |ids|
  {
    if ids == [] then tasks
    else
      var woken := Wake(tasks, ids[0]);
      assert forall k :: 0 <= k < |ids| - 1 ==> ids[1..][k] == ids[k + 1];
      assert AllListed(woken, ids[1..]) by { WakeKeepsListed(tasks, ids); }
      WakeAll(woken, ids[1..])
  }

  ghost predicate DistinctIds<F>(tasks: seq<Task<F>>) {
    forall i, j :: 0 <= i < j < |tasks| ==> tasks[i].id != tasks[j].id
  }

  /** What waking a list of ids comes to: exactly the named tasks become EXEC. */
  lemma {:induction false} WakeAllAt<F>(tasks: seq<Task<F>>, ids: seq<TaskId>, i: nat)
    requires AllListed(tasks, ids) && DistinctIds(tasks) && i < |tasks|
    ensures WakeAll(tasks, ids)[i] == if tasks[i].id in ids then tasks[i].(status := Exec) else tasks[i]
    decreases |ids|
  {
    if ids != [] {
      var woken := Wake(tasks, ids[0]);
      WakeKeepsListed(tasks, ids);
      WakeAllAt(woken, ids[1..], i);
      assert ids == [ids[0]] + ids[1..];
    }
  }

  /** `processSync`: wake what is to be woken, then list what is to be started. */
  function ProcessSync<F>(l: Loop<F>): Loop<F>
    requires AllListed(l.tasks, l.toWake)
  {
    l.(tasks := WakeAll(l.tasks, l.toWake) + l.toStart, toWake := [], toStart := [])
  }

  function Wrap<F>(l: Loop<F>): Loop<F> {
    if l.current == |l.tasks| then l.(current := 0) else l
  }

  /** The list and the cursor with which `cycle` picks a task. */
  function Drained<F>(l: Loop<F>): Loop<F>
    requires AllListed(l.tasks, l.toWake)
  {
    Wrap(ProcessSync(l))
  }

  function AddTask<F>(l: Loop<F>, result: Option<F>): Loop<F> {
    l.(toStart := l.toStart + [Task(l.nextId, Init, result)], nextId := l.nextId + 1)
  }

  function NotifyReady<F>(l: Loop<F>, ids: seq<TaskId>): Loop<F> {
    l.(toWake := l.toWake + ids)
  }

  function SetStatus<F>(l: Loop<F>, s: Status): Loop<F>
    requires l.current < |l.tasks|
  {
    l.(tasks := l.tasks[l.current := l.tasks[l.current].(status := s)])
  }

  function Advance<F>(l: Loop<F>): Loop<F> {
    l.(current := l.current + 1)
  }

  /** Main is done while some listed or pending task is not. */
  predicate HasOrphans<F>(l: Loop<F>) {
    (exists i :: 0 <= i < |l.tasks| && l.tasks[i].status != Done) ||
    (exists i :: 0 <= i < |l.toStart| && l.toStart[i].status != Done)
  }

  predicate ChecksOrphans<F>(l: Loop<F>, id: TaskId) {
    l.mainId != INVALID_TASK_ID && l.mainId == id
  }

  /** The current task leaves the list; an empty list stops the loop. */
  function Erase<F>(l: Loop<F>): Loop<F>
    requires l.current < |l.tasks|
  {
    var rest := l.tasks[..l.current] + l.tasks[l.current + 1..];
    l.(tasks := rest, running := l.running && rest != [])
  }

  /** `clear`: the pending lists are left as they are. */
  function Clear<F>(l: Loop<F>): Loop<F> {
    l.(tasks := [], current := 0, running := true, mainId := INVALID_TASK_ID)
  }

  /** What `run` starts from: a cleared loop that was given one task, its main task. */
  function Launch<F>(base: TaskId): Loop<F> {
    Loop([], 0, true, [], [Task(base, Init, None)], base + 1, base)
  }
}
