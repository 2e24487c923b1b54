/** The whole cooperative runtime as a state machine: the loop of LoopModel.dfy, the
    futures and events its tasks share, and any number of foreign threads that notify
    events while the loop runs.

    A step is one atomic section of the code. `Cycle` is the part of `cycle()` before
    control passes to a task; the other steps of the loop thread are what a task does
    until it gives control back. What a task does, and in which order, is arbitrary:
    the steps of a run are any list of steps that `Allowed` admits. */
module Machine {
  import opened Options
  import opened LoopModel
  import opened FutureModel

  type FutureId = nat
  type EventId = nat
  type Value = int

  const FRESH: Future<Value> := Future(false, false, [], 0)

  /** A foreign thread inside `notifyOne`/`notifyAll`: while `ids` is not empty it holds
      the mutex of `event` and has still to pass `ids` to the loop. */
  datatype Hand = Hand(event: EventId, ids: seq<TaskId>)

  datatype Phase =
    | Idle               // between two calls of cycle()
    | Busy               // the current task executes its slice
    | Saved              // the current task is in an event's list and about to block
    | Orphaned           // MainTaskExitedException left the loop
    | Escaped            // an exception of a task left the loop
    | Crashed            // null task dereferenced, or cursor out of range

  datatype Ending = Finished | Exited | Threw

  datatype AwaitRecord = AwaitRecord(task: TaskId, future: FutureId, outcome: Outcome<Value>)

  /** What has happened so far; no step of the code reads it. */
  datatype History = History(
    base: TaskId,
    started: seq<TaskId>,
    ended: map<TaskId, Ending>,
    deleted: seq<TaskId>,
    completions: seq<(FutureId, Value)>,
    cancels: seq<FutureId>,
    awaits: seq<AwaitRecord>)

  datatype World = World(
    loop: Loop<FutureId>,
    phase: Phase,
    keepGoing: bool,                      // ASYNC_CONTINUE_ON_TASK_EXC
    futures: seq<Future<Value>>,
    events: seq<seq<TaskId>>,
    hands: seq<Hand>,
    raw: seq<TaskId>,                     // tasks in a raw wait() not yet notified
    wrapped: map<TaskId, FutureId>,       // the future a worker completes when it returns
    position: map<TaskId, FutureId>,      // the await a task is suspended in
    hist: History)

  datatype Act =
    | Cycle
    | Spawn(wraps: bool) | NewFuture | NewEvent
    | Complete(f: FutureId, v: Value) | Cancel(f: FutureId)
    | NotifyOne(e: EventId) | NotifyAll(e: EventId) | RawNotify(id: TaskId)
    | Bind(f: FutureId)
    | AwaitReady(f: FutureId)
    | AwaitBlock(f: FutureId)
    | SaveWaiter(e: EventId) | Suspend
    | RawWait | Yield | Exit | Return(v: Value) | Throw
    | Take(thread: nat, e: EventId, all: bool) | Deliver(thread: nat)

  predicate InSlice(w: World) {
    w.phase.Busy? && w.loop.current < |w.loop.tasks|
  }

  function Self(w: World): Task<FutureId>
    requires w.loop.current < |w.loop.tasks|
  {
    w.loop.tasks[w.loop.current]
  }

  predicate Unresolved(w: World, f: FutureId) {
    f < |w.futures| && !w.futures[f].Resolved()
  }

  predicate Unlocked(w: World, e: EventId) {
    e < |w.events| && forall k :: 0 <= k < |w.hands| && w.hands[k].ids != [] ==> w.hands[k].event != e
  }

  // ---------------------------------------------------------------- building blocks

  function Push(w: World, ids: seq<TaskId>): World {
    w.(loop := NotifyReady(w.loop, ids))
  }

  function CompleteFuture(w: World, f: FutureId, v: Value): World
    requires f < |w.futures|
  {
    Push(w, w.futures[f].waiters).(
      futures := w.futures[f := AfterComplete(w.futures[f], v)],
      hist := w.hist.(completions := w.hist.completions + [(f, v)]))
  }

  function CancelFuture(w: World, f: FutureId): World
    requires f < |w.futures|
  {
    Push(w, w.futures[f].waiters).(
      futures := w.futures[f := AfterCancel(w.futures[f])],
      hist := w.hist.(cancels := w.hist.cancels + [f]))
  }

  /** `longjmp` back to the loop: the current task keeps status `s`, the cursor moves. */
  function SwitchOut(w: World, s: Status): World
    requires w.loop.current < |w.loop.tasks|
  {
    w.(phase := Idle, loop := Advance(SetStatus(w.loop, s)))
  }

  /** The worker's own frame ends: DONE, and the cursor stays. */
  function FinishWorker(w: World, how: Ending, phase: Phase): World
    requires w.loop.current < |w.loop.tasks|
  {
    w.(phase := phase, loop := SetStatus(w.loop, Done),
       hist := w.hist.(ended := w.hist.ended[Self(w).id := how]))
  }

  function LogAwait(w: World, t: TaskId, f: FutureId): World
    requires f < |w.futures|
  {
    w.(hist := w.hist.(awaits := w.hist.awaits + [AwaitRecord(t, f, AwaitOutcome(w.futures[f]))]))
  }

  // ---------------------------------------------------------------- cycle()

  function CleanUp(w: World): World
    requires w.loop.current < |w.loop.tasks|
  {
    var t := Self(w);
    if ChecksOrphans(w.loop, t.id) && HasOrphans(w.loop) then
      w.(phase := Orphaned)
    else
      var w1 :=
        if t.result.Some? && t.result.value < |w.futures| && !w.futures[t.result.value].completed
        then CancelFuture(w, t.result.value) else w;
      w1.(loop := Erase(w1.loop), hist := w1.hist.(deleted := w1.hist.deleted + [t.id]))
  }

  function Start(w: World): World
    requires w.loop.current < |w.loop.tasks|
  {
    w.(phase := Busy, loop := SetStatus(w.loop, Exec),
       hist := w.hist.(started := w.hist.started + [Self(w).id]))
  }

  function Resume(w: World): World
    requires w.loop.current < |w.loop.tasks|
  {
    var t := Self(w).id;
    var w1 := w.(phase := Busy);
    if t in w.position && w.position[t] < |w.futures|
    then LogAwait(w1, t, w.position[t]).(position := w.position - {t}) else w1
  }

  /** `cycle()` from the choice of a task on. */
  function Dispatch(w: World): World {
    if w.loop.current >= |w.loop.tasks| then w.(phase := Crashed)
    else match Self(w).status
      case Init => Start(w)
      case Done => CleanUp(w)
      case Exec => Resume(w)
      case Wait => w.(loop := Advance(w.loop))
  }

  function Drain(w: World): World
    requires AllListed(w.loop.tasks, w.loop.toWake)
  {
    w.(loop := Drained(w.loop))
  }

  function DoCycle(w: World): World {
    if AllListed(w.loop.tasks, w.loop.toWake) then Dispatch(Drain(w)) else w.(phase := Crashed)
  }

  // ---------------------------------------------------------------- what tasks do

  function DoSpawn(w: World, wraps: bool): World {
    if wraps then
      w.(loop := AddTask(w.loop, Some(|w.futures|)), futures := w.futures + [FRESH],
         wrapped := w.wrapped[w.loop.nextId := |w.futures|])
    else
      w.(loop := AddTask(w.loop, None))
  }

  /** `notifyOne` and `notifyAll`. */
  function DoNotify(w: World, e: EventId, all: bool): World
    requires e < |w.events|
  {
    var r := Notifying(w.events[e], all);
    Push(w, r.woken).(events := w.events[e := r.rest])
  }

  /** Without the first occurrence of `id`. */
  function Without(ids: seq<TaskId>, id: TaskId): seq<TaskId> {
    if ids == [] then []
    else if ids[0] == id then ids[1..]
    else [ids[0]] + Without(ids[1..], id)
  }

  function DoRawNotify(w: World, id: TaskId): World {
    Push(w, [id]).(raw := Without(w.raw, id))
  }

  function DoBind(w: World, f: FutureId): World
    requires w.loop.current < |w.loop.tasks|
  {
    w.(loop := w.loop.(tasks := w.loop.tasks[w.loop.current := Self(w).(result := Some(f))]))
  }

  function DoAwaitBlock(w: World, f: FutureId): World
    requires w.loop.current < |w.loop.tasks| && f < |w.futures|
  {
    var t := Self(w).id;
    SwitchOut(w, Wait).(
      futures := w.futures[f := AfterSaveWaiter(w.futures[f], t)],
      position := w.position[t := f])
  }

  function DoSaveWaiter(w: World, e: EventId): World
    requires w.loop.current < |w.loop.tasks| && e < |w.events|
  {
    w.(phase := Saved, events := w.events[e := w.events[e] + [Self(w).id]])
  }

  function DoRawWait(w: World): World
    requires w.loop.current < |w.loop.tasks|
  {
    SwitchOut(w, Wait).(raw := w.raw + [Self(w).id])
  }

  function DoExit(w: World): World
    requires w.loop.current < |w.loop.tasks|
  {
    var t := Self(w).id;
    SwitchOut(w, Done).(hist := w.hist.(ended := w.hist.ended[t := Exited]))
  }

  function DoReturn(w: World, v: Value): World
    requires w.loop.current < |w.loop.tasks|
  {
    var t := Self(w).id;
    var w1 := if t in w.wrapped && w.wrapped[t] < |w.futures| then CompleteFuture(w, w.wrapped[t], v) else w;
    FinishWorker(w1, Finished, Idle)
  }

  function DoThrow(w: World): World
    requires w.loop.current < |w.loop.tasks|
  {
    FinishWorker(w, Threw, if w.keepGoing then Idle else Escaped)
  }

  // ---------------------------------------------------------------- foreign threads

  function DoTake(w: World, k: nat, e: EventId, all: bool): World
    requires k < |w.hands| && e < |w.events|
  {
    var r := Notifying(w.events[e], all);
    w.(hands := w.hands[k := Hand(e, r.woken)], events := w.events[e := r.rest])
  }

  function DoDeliver(w: World, k: nat): World
    requires k < |w.hands| && w.hands[k].ids != []
  {
    Push(w, [w.hands[k].ids[0]]).(hands := w.hands[k := w.hands[k].(ids := w.hands[k].ids[1..])])
  }

  // ---------------------------------------------------------------- runs

  /** The task the next `cycle()` would clean up has not had its future cancelled before:
      the only way in which `cleanUpTask` itself could resolve a future twice. */
  predicate CleansUpOnce(w: World) {
    AllListed(w.loop.tasks, w.loop.toWake) ==>
      var l := Drained(w.loop);
      l.current < |l.tasks| && l.tasks[l.current].status == Done && l.tasks[l.current].result.Some? ==>
        var f := l.tasks[l.current].result.value;
        f < |w.futures| ==> !w.futures[f].cancelled
  }

  /** When a step can be taken. Besides the control state and the mutexes it asks what
      callers owe: a future is resolved once, a cancelled future is not awaited, and a raw
      `notify` names a task in a raw `wait`. That the cursor is in range inside a slice is
      no restriction, see `Runs.CursorNamesTheExecutingTask`. */
  predicate Allowed(w: World, a: Act) {
    match a
    case Cycle => w.phase.Idle? && w.loop.running && CleansUpOnce(w)
    case Spawn(_) => InSlice(w)
    case NewFuture => InSlice(w)
    case NewEvent => InSlice(w)
    case Complete(f, v) => InSlice(w) && Unresolved(w, f)
    case Cancel(f) => InSlice(w) && Unresolved(w, f)
    case NotifyOne(e) => InSlice(w) && Unlocked(w, e)
    case NotifyAll(e) => InSlice(w) && Unlocked(w, e)
    case RawNotify(id) => InSlice(w) && id in w.raw
    case Bind(f) => InSlice(w) && f < |w.futures|
    case AwaitReady(f) => InSlice(w) && f < |w.futures| && w.futures[f].completed
    case AwaitBlock(f) => InSlice(w) && Unresolved(w, f)
    case SaveWaiter(e) => InSlice(w) && Unlocked(w, e)
    case Suspend => w.phase.Saved? && w.loop.current < |w.loop.tasks|
    case RawWait => InSlice(w)
    case Yield => InSlice(w)
    case Exit => InSlice(w)
    case Return(v) => InSlice(w) && (Self(w).id in w.wrapped ==> Unresolved(w, w.wrapped[Self(w).id]))
    case Throw => InSlice(w)
    case Take(k, e, all) => k < |w.hands| && w.hands[k].ids == [] && Unlocked(w, e)
    case Deliver(k) => k < |w.hands| && w.hands[k].ids != []
  }

  function Step(w: World, a: Act): World
    requires Allowed(w, a)
  {
    match a
    case Cycle => DoCycle(w)
    case Spawn(wraps) => DoSpawn(w, wraps)
    case NewFuture => w.(futures := w.futures + [FRESH])
    case NewEvent => w.(events := w.events + [[]])
    case Complete(f, v) => CompleteFuture(w, f, v)
    case Cancel(f) => CancelFuture(w, f)
    case NotifyOne(e) => DoNotify(w, e, false)
    case NotifyAll(e) => DoNotify(w, e, true)
    case RawNotify(id) => DoRawNotify(w, id)
    case Bind(f) => DoBind(w, f)
    case AwaitReady(f) => LogAwait(w, Self(w).id, f)
    case AwaitBlock(f) => DoAwaitBlock(w, f)
    case SaveWaiter(e) => DoSaveWaiter(w, e)
    case Suspend => SwitchOut(w, Wait)
    case RawWait => DoRawWait(w)
    case Yield => SwitchOut(w, Exec)
    case Exit => DoExit(w)
    case Return(v) => DoReturn(w, v)
    case Throw => DoThrow(w)
    case Take(k, e, all) => DoTake(w, k, e, all)
    case Deliver(k) => DoDeliver(w, k)
  }

  predicate AllowedRun(w: World, acts: seq<Act>)
    decreases |acts|
  {
    acts == [] || (Allowed(w, acts[0]) && AllowedRun(Step(w, acts[0]), acts[1..]))
  }

  function Run(w: World, acts: seq<Act>): World
    requires AllowedRun(w, acts)
    decreases |acts|
  {
    if acts == [] then w else Run(Step(w, acts[0]), acts[1..])
  }

  // ---------------------------------------------------------------- what the history tells

  /** The values with which `f` was completed, in order. */
  function Values(cs: seq<(FutureId, Value)>, f: FutureId): seq<Value> {
    if cs == [] then []
    else
      var last := cs[|cs| - 1];
      Values(cs[..|cs| - 1], f) + if last.0 == f then [last.1] else []
  }

  function Cancellations(w: World, f: FutureId): nat {
    multiset(w.hist.cancels)[f]
  }

  /** `f` was resolved at most once, and its flags and value say how. */
  predicate FlagsOk(w: World, f: FutureId) {
    if f < |w.futures| then
      && Values(w.hist.completions, f) == (if w.futures[f].completed then [w.futures[f].value] else [])
      && Cancellations(w, f) == (if w.futures[f].cancelled then 1 else 0)
      && !(w.futures[f].completed && w.futures[f].cancelled)
    else
      Values(w.hist.completions, f) == [] && Cancellations(w, f) == 0
  }

  /** An `await` returned only the value its future was completed with, threw
      `CancelledException` only when the future was cancelled, and never reported a future
      that failed to complete. */
  predicate RecordOk(w: World, r: AwaitRecord) {
    r.future < |w.futures| &&
    match r.outcome
    case Returned(v) =>
      w.futures[r.future].completed && w.futures[r.future].value == v && !w.futures[r.future].cancelled
    case ThrewCancelled => w.futures[r.future].cancelled && !w.futures[r.future].completed
    case _ => false
  }

  /** What `run` finds: a launched loop, and no task or thread anywhere. Futures may be left over
      from earlier runs, but nobody waits for one that is not resolved. */
  ghost predicate Initial(w: World) {
    && w.hist.base >= 0
    && w.hist.started == [] && w.hist.ended == map[] && w.hist.deleted == []
    && w.loop == Launch(w.hist.base)
    && w.phase == Idle
    && (forall f :: 0 <= f < |w.futures| && !w.futures[f].Resolved() ==> w.futures[f].waiters == [])
    && (forall f: FutureId :: FlagsOk(w, f))
    && (forall k :: 0 <= k < |w.hist.awaits| ==> RecordOk(w, w.hist.awaits[k]))
    && (forall e :: 0 <= e < |w.events| ==> w.events[e] == [])
    && (forall k :: 0 <= k < |w.hands| ==> w.hands[k].ids == [])
    && w.raw == [] && w.wrapped == map[] && w.position == map[]
  }
}
