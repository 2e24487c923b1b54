/** The thread pool: workers, a queue under a mutex, a condition variable, and flags that are
    set outside the mutex. A step is one critical section, one notification or one `setFlag`,
    by any thread, in any order. `setFlag` is a load and a store, not one atomic operation: it is
    one step here on the condition that no two threads set flags at the same time, and
    `FlagIsLost` says what happens otherwise. */
module Pool {
  type Job = nat

  const FLAG_NONE: bv8 := 0
  const FLAG_STOPPED: bv8 := 1
  const FLAG_FINISH: bv8 := 2
  const FLAG_TERMINATE: bv8 := 4

  predicate GetFlag(flags: bv8, mask: bv8) {
    flags & mask > 0
  }

  function WithFlag(flags: bv8, mask: bv8, state: bool): bv8 {
    if state then flags | mask else flags & !mask
  }

  /** Setting or clearing `mask` says so afterwards. */
  lemma FlagIsSet(flags: bv8, mask: bv8)
    requires mask > 0
    ensures GetFlag(WithFlag(flags, mask, true), mask) && !GetFlag(WithFlag(flags, mask, false), mask)
  {
    assert (flags | mask) & mask == mask;
    assert (flags & !mask) & mask == 0;
  }

  /** Other flags keep their value when one is set. */
  lemma OtherFlagsKept(flags: bv8, mask: bv8, other: bv8)
    requires other & mask == 0
    ensures GetFlag(WithFlag(flags, mask, true), other) == GetFlag(flags, other)
  {
    assert (flags | mask) & other == flags & other;
  }

  /** And when one is cleared. */
  lemma OtherFlagsKeptClearing(flags: bv8, mask: bv8, other: bv8)
    requires other & mask == 0
    ensures GetFlag(WithFlag(flags, mask, false), other) == GetFlag(flags, other)
  {
    assert (flags & !mask) & other == flags & other;
  }

  /** One caller of `setFlag` loads `flags`, another then sets `other`, and the first stores: the
      other's flag is lost unless it was up before or is in the first caller's mask. */
  lemma FlagIsLost(flags: bv8, mask: bv8, other: bv8)
    ensures GetFlag(WithFlag(flags, mask, true), other) <==> GetFlag(flags, other) || GetFlag(mask, other)
  {
    assert (flags | mask) & other == (flags & other) | (mask & other);
  }

  /** What a worker decides while it holds the mutex. */
  datatype Decision = MustWait | Leave | Run(job: Job)

  /** The wait predicate and the two tests after it. The flags are read one after the other
      while other threads may set them; the last read decides, so it is one step here. */
  function Decide(queue: seq<Job>, flags: bv8): Decision {
    if queue == [] && !GetFlag(flags, FLAG_TERMINATE | FLAG_FINISH) then MustWait
    else if GetFlag(flags, FLAG_TERMINATE) then Leave
    else if GetFlag(flags, FLAG_FINISH) && queue == [] then Leave
    else if queue == [] then MustWait
    else Run(queue[0])
  }

  /** The last test of `Decide` is never reached with an empty queue, and each decision has its reason. */
  lemma DecideMeaning(queue: seq<Job>, flags: bv8)
    ensures var d := Decide(queue, flags);
      var finish, term := GetFlag(flags, FLAG_FINISH), GetFlag(flags, FLAG_TERMINATE);
      && (d.MustWait? <==> queue == [] && !finish && !term)
      && (d.Leave? <==> term || (finish && queue == []))
      && (d.Run? <==> queue != [] && !term)
      && (d.Run? ==> d.job == queue[0])
  {
    assert (flags & (FLAG_TERMINATE | FLAG_FINISH) > 0) <==> (flags & FLAG_TERMINATE > 0) || (flags & FLAG_FINISH > 0);
  }

  class ThreadPool {
    var queue: seq<Job>
    var flags: bv8

    constructor ()
      ensures queue == [] && flags == FLAG_NONE
    {
      queue, flags := [], FLAG_NONE;
    }

    method SetFlag(mask: bv8, state: bool)
      modifies this`flags
      ensures flags == WithFlag(old(flags), mask, state)
    {
      var f := flags;
      if state {
        f := f | mask;
      } else {
        f := f & !mask;
      }
      flags := f;
    }

    /** The critical section of `scheduleTask`. */
    method PushTask(job: Job)
      modifies this`queue
      ensures queue == old(queue) + [job]
    {
      queue := queue + [job];
    }

    /** The critical section of `worker`. */
    method Take() returns (d: Decision)
      modifies this`queue
      ensures d == Decide(old(queue), flags)
      ensures d.Run? <==> old(queue) != [] && flags & FLAG_TERMINATE == 0
      ensures d.MustWait? <==> old(queue) == [] && flags & FLAG_TERMINATE == 0 && flags & FLAG_FINISH == 0
      ensures d.Run? ==> d.job == old(queue)[0]
      ensures queue == if d.Run? then old(queue)[1..] else old(queue)
    {
      DecideMeaning(queue, flags);
      if queue == [] && !GetFlag(flags, FLAG_TERMINATE | FLAG_FINISH) { return MustWait; }
      if GetFlag(flags, FLAG_TERMINATE) { return Leave; }
      if GetFlag(flags, FLAG_FINISH) && queue == [] { return Leave; }
      d := Run(queue[0]);
      queue := queue[1..];
    }

    method Clear()
      modifies this`queue
      ensures queue == []
    {
      while |queue| > 0
        decreases |queue|
      {
        queue := queue[1..];
      }
    }
  }

  // ------------------------------------------------------- all threads together

  datatype Worker =
    | Checking            // on its way to the mutex, to evaluate the predicate
    | Parking             // found the predicate false; still holds the mutex
    | Parked              // in the condition variable
    | Busy(job: Job)
    | Gone

  datatype State = State(
    queue: seq<Job>,
    flags: bv8,
    workers: seq<Worker>,
    toNotify: nat,        // pushes whose notify_one has not been issued yet
    scheduled: nat,       // jobs are numbered as they are scheduled
    taken: seq<Job>,
    ran: seq<Job>,
    cleared: bool)

  datatype Act =
    | Schedule                       // push, by a thread outside the pool
    | ScheduleFrom(worker: nat)      // push, by a job of the pool
    | NotifyOne(worker: nat)         // wakes this parked worker
    | NotifyNobody                   // notify_one when none is parked
    | NotifyAll
    | SetFinish | SetTerminate
    | SetStopped                     // the joins have returned
    | Clear
    | Evaluate(worker: nat)
    | Park(worker: nat)
    | WakeUp(worker: nat)            // spuriously
    | FinishJob(worker: nat)

  predicate AllGone(s: State) {
    forall i :: 0 <= i < |s.workers| ==> s.workers[i] == Gone
  }

  predicate MutexFree(s: State) {
    forall i :: 0 <= i < |s.workers| ==> s.workers[i] != Parking
  }

  predicate Allowed(s: State, a: Act) {
    match a
    case Schedule => MutexFree(s)
    case ScheduleFrom(i) => MutexFree(s) && i < |s.workers| && s.workers[i].Busy?
    case NotifyOne(i) => s.toNotify > 0 && i < |s.workers| && s.workers[i] == Parked
    case NotifyNobody => s.toNotify > 0 && forall i :: 0 <= i < |s.workers| ==> s.workers[i] != Parked
    case NotifyAll => true
    case SetFinish => true
    case SetTerminate => true
    case SetStopped => AllGone(s)
    case Clear => MutexFree(s)
    case Evaluate(i) => MutexFree(s) && i < |s.workers| && s.workers[i] == Checking
    case Park(i) => i < |s.workers| && s.workers[i] == Parking
    case WakeUp(i) => i < |s.workers| && s.workers[i] == Parked
    case FinishJob(i) => i < |s.workers| && s.workers[i].Busy?
  }

  function Push(s: State): State {
    s.(queue := s.queue + [s.scheduled], scheduled := s.scheduled + 1, toNotify := s.toNotify + 1)
  }

  function WakeParked(w: Worker): Worker {
    if w == Parked then Checking else w
  }

  function Step(s: State, a: Act): State
    requires Allowed(s, a)
  {
    match a
    case Schedule => Push(s)
    case ScheduleFrom(_) => Push(s)
    case NotifyOne(i) => s.(toNotify := s.toNotify - 1, workers := s.workers[i := Checking])
    case NotifyNobody => s.(toNotify := s.toNotify - 1)
    case NotifyAll => s.(workers := seq(|s.workers|, i requires 0 <= i < |s.workers| => WakeParked(s.workers[i])))
    case SetFinish => s.(flags := WithFlag(s.flags, FLAG_FINISH, true))
    case SetTerminate => s.(flags := WithFlag(s.flags, FLAG_TERMINATE, true))
    case SetStopped => s.(flags := WithFlag(s.flags, FLAG_STOPPED, true))
    case Clear => s.(queue := [], cleared := true)
    case Evaluate(i) =>
      (match Decide(s.queue, s.flags)
       case MustWait => s.(workers := s.workers[i := Parking])
       case Leave => s.(workers := s.workers[i := Gone])
       case Run(j) =>
         DecideMeaning(s.queue, s.flags);
         s.(workers := s.workers[i := Busy(j)], queue := s.queue[1..], taken := s.taken + [j]))
    case Park(i) => s.(workers := s.workers[i := Parked])
    case WakeUp(i) => s.(workers := s.workers[i := Checking])
    case FinishJob(i) => s.(workers := s.workers[i := Checking], ran := s.ran + [s.workers[i].job])
  }

  predicate AllowedRun(s: State, acts: seq<Act>)
    decreases |acts|
  {
    acts == [] || (Allowed(s, acts[0]) && AllowedRun(Step(s, acts[0]), acts[1..]))
  }

  function RunActs(s: State, acts: seq<Act>): State
    requires AllowedRun(s, acts)
    decreases |acts|
  {
    if acts == [] then s else RunActs(Step(s, acts[0]), acts[1..])
  }

  lemma RunCons(s: State, a: Act, rest: seq<Act>)
    requires Allowed(s, a) && AllowedRun(Step(s, a), rest)
    ensures AllowedRun(s, [a] + rest) && RunActs(s, [a] + rest) == RunActs(Step(s, a), rest)
  {
    assert ([a] + rest)[1..] == rest;
  }

  /** A pool of `n` workers, nothing scheduled. */
  function Fresh(n: nat): State {
    State([], FLAG_NONE, seq(n, _ => Checking), 0, 0, [], [], false)
  }

  // ------------------------------------------------------- no sleeping past work

  function CountChecking(ws: seq<Worker>): nat {
    if ws == [] then 0 else (if ws[0] == Checking then 1 else 0) + CountChecking(ws[1..])
  }

  lemma {:induction false} CountUpdate(ws: seq<Worker>, i: nat, w: Worker)
    requires i < |ws|
    ensures CountChecking(ws[i := w]) ==
      CountChecking(ws) - (if ws[i] == Checking then 1 else 0) + (if w == Checking then 1 else 0)
  {
    if i > 0 {
      assert ws[i := w][1..] == ws[1..][i - 1 := w];
      CountUpdate(ws[1..], i - 1, w);
    } else {
      assert ws[i := w][1..] == ws[1..];
    }
  }

  predicate SomeParked(s: State) {
    exists i :: 0 <= i < |s.workers| && s.workers[i] == Parked
  }

  /** If a worker is parked, there are no more jobs queued than notifications still to be issued
      and workers on their way to look again. While a worker is parking the queue is empty. */
  predicate ParkedBound(s: State) {
    && (!MutexFree(s) ==> s.queue == [])
    && (!GetFlag(s.flags, FLAG_TERMINATE) && SomeParked(s) ==> |s.queue| <= s.toNotify + CountChecking(s.workers))
  }

  /** Setting one of the flags keeps the other two. */
  lemma ShutdownBits(flags: bv8)
    ensures var f, t := WithFlag(flags, FLAG_FINISH, true), WithFlag(flags, FLAG_TERMINATE, true);
      && GetFlag(f, FLAG_FINISH) && GetFlag(f, FLAG_TERMINATE) == GetFlag(flags, FLAG_TERMINATE)
      && GetFlag(f, FLAG_STOPPED) == GetFlag(flags, FLAG_STOPPED)
      && GetFlag(t, FLAG_TERMINATE) && GetFlag(t, FLAG_FINISH) == GetFlag(flags, FLAG_FINISH)
      && GetFlag(t, FLAG_STOPPED) == GetFlag(flags, FLAG_STOPPED)
    ensures var d := WithFlag(flags, FLAG_STOPPED, true);
      && GetFlag(d, FLAG_FINISH) == GetFlag(flags, FLAG_FINISH)
      && GetFlag(d, FLAG_TERMINATE) == GetFlag(flags, FLAG_TERMINATE)
  {
    FlagIsSet(flags, FLAG_FINISH);
    FlagIsSet(flags, FLAG_TERMINATE);
    OtherFlagsKept(flags, FLAG_FINISH, FLAG_TERMINATE);
    OtherFlagsKept(flags, FLAG_FINISH, FLAG_STOPPED);
    OtherFlagsKept(flags, FLAG_TERMINATE, FLAG_FINISH);
    OtherFlagsKept(flags, FLAG_TERMINATE, FLAG_STOPPED);
    OtherFlagsKept(flags, FLAG_STOPPED, FLAG_FINISH);
    OtherFlagsKept(flags, FLAG_STOPPED, FLAG_TERMINATE);
  }

  lemma BoundOne(s: State, i: nat, w: Worker)
    requires ParkedBound(s) && i < |s.workers| && s.workers[i] != Checking && w == Checking
    ensures ParkedBound(s.(workers := s.workers[i := w]))
  {
    CountUpdate(s.workers, i, w);
    var u := s.(workers := s.workers[i := w]);
    if SomeParked(u) {
      var k :| 0 <= k < |u.workers| && u.workers[k] == Parked;
      assert s.workers[k] == Parked;
    }
    if !MutexFree(u) {
      var k :| 0 <= k < |u.workers| && u.workers[k] == Parking;
      assert s.workers[k] == Parking;
    }
  }

  lemma BoundEvaluate(s: State, i: nat)
    requires ParkedBound(s) && Allowed(s, Evaluate(i))
    ensures ParkedBound(Step(s, Evaluate(i)))
  {
    var u := Step(s, Evaluate(i));
    DecideMeaning(s.queue, s.flags);
    CountUpdate(s.workers, i, u.workers[i]);
    if SomeParked(u) {
      var k :| 0 <= k < |u.workers| && u.workers[k] == Parked;
      assert s.workers[k] == Parked;
    }
    if !MutexFree(u) {
      var k :| 0 <= k < |u.workers| && u.workers[k] == Parking;
      assert k == i;
    }
  }

  lemma BoundNotifyAll(s: State)
    requires ParkedBound(s)
    ensures ParkedBound(Step(s, NotifyAll))
  {
    var u := Step(s, NotifyAll);
    if !MutexFree(u) {
      var k :| 0 <= k < |u.workers| && u.workers[k] == Parking;
      assert s.workers[k] == Parking;
    }
  }

  lemma BoundPark(s: State, i: nat)
    requires ParkedBound(s) && Allowed(s, Park(i))
    ensures ParkedBound(Step(s, Park(i)))
  {
    assert !MutexFree(s) && s.queue == [];
  }

  /** Steps that leave the workers alone. */
  lemma BoundShared(s: State, a: Act)
    requires ParkedBound(s) && Allowed(s, a)
    requires a.Schedule? || a.ScheduleFrom? || a.NotifyNobody? || a.Clear?
      || a.SetFinish? || a.SetTerminate? || a.SetStopped?
    ensures ParkedBound(Step(s, a))
  {
    ShutdownBits(s.flags);
    assert Step(s, a).workers == s.workers;
    assert MutexFree(Step(s, a)) == MutexFree(s) && SomeParked(Step(s, a)) == SomeParked(s);
  }

  lemma BoundNotifyOne(s: State, i: nat)
    requires ParkedBound(s) && Allowed(s, NotifyOne(i))
    ensures ParkedBound(Step(s, NotifyOne(i)))
  {
    BoundOne(s, i, Checking);
    CountUpdate(s.workers, i, Checking);
    assert SomeParked(s);
  }

  lemma BoundStep(s: State, a: Act)
    requires ParkedBound(s) && Allowed(s, a)
    ensures ParkedBound(Step(s, a))
  {
    if a.NotifyOne? {
      BoundNotifyOne(s, a.worker);
    } else if a.WakeUp? || a.FinishJob? {
      BoundOne(s, a.worker, Checking);
    } else if a.Evaluate? {
      BoundEvaluate(s, a.worker);
    } else if a.Park? {
      BoundPark(s, a.worker);
    } else if a.NotifyAll? {
      BoundNotifyAll(s);
    } else {
      BoundShared(s, a);
    }
  }

  lemma {:induction false} BoundRun(s: State, acts: seq<Act>)
    requires ParkedBound(s) && AllowedRun(s, acts)
    ensures ParkedBound(RunActs(s, acts))
    decreases |acts|
  {
    if acts != [] {
      BoundStep(s, acts[0]);
      BoundRun(Step(s, acts[0]), acts[1..]);
    }
  }

  /** In every interleaving, until TERMINATE is set: a parked worker is never needed by a job that
      no notification and no worker is on its way to. */
  lemma NoSleepingPastWork(n: nat, acts: seq<Act>)
    requires AllowedRun(Fresh(n), acts)
    ensures var s := RunActs(Fresh(n), acts);
      !GetFlag(s.flags, FLAG_TERMINATE) && SomeParked(s) ==> |s.queue| <= s.toNotify + CountChecking(s.workers)
  {
    BoundRun(Fresh(n), acts);
  }

  // ------------------------------------------------------- nothing lost, nothing twice

  function Holds(w: Worker, j: Job): nat {
    if w == Busy(j) then 1 else 0
  }

  /** How many workers are running job `j`. */
  function Running(ws: seq<Worker>, j: Job): nat {
    if ws == [] then 0 else Holds(ws[0], j) + Running(ws[1..], j)
  }

  lemma {:induction false} RunningUpdate(ws: seq<Worker>, i: nat, w: Worker, j: Job)
    requires i < |ws|
    ensures Running(ws[i := w], j) == Running(ws, j) - Holds(ws[i], j) + Holds(w, j)
  {
    if i > 0 {
      assert ws[i := w][1..] == ws[1..][i - 1 := w];
      RunningUpdate(ws[1..], i - 1, w, j);
    } else {
      assert ws[i := w][1..] == ws[1..];
    }
  }

  lemma {:induction false} RunningSame(ws: seq<Worker>, us: seq<Worker>, j: Job)
    requires |ws| == |us| && forall i :: 0 <= i < |ws| ==> Holds(ws[i], j) == Holds(us[i], j)
    ensures Running(ws, j) == Running(us, j)
  {
    if ws != [] {
      RunningSame(ws[1..], us[1..], j);
    }
  }

  function Times(js: seq<Job>, j: Job): nat {
    multiset(js)[j]
  }

  lemma TimesAppend(js: seq<Job>, k: Job, j: Job)
    ensures Times(js + [k], j) == Times(js, j) + if k == j then 1 else 0
  {}

  function Numbers(n: nat): (r: seq<Job>)
    ensures |r| == n && forall i :: 0 <= i < n ==> r[i] == i
  {
    seq(n, i => i)
  }

  /** Each time job `j` was taken it is being run or has been run. */
  predicate AccountedFor(s: State, j: Job) {
    Times(s.taken, j) == Running(s.workers, j) + Times(s.ran, j)
  }

  /** Jobs are taken in the order they were scheduled, and each is run once for each time
      it was taken. */
  ghost predicate Accounted(s: State) {
    && (!s.cleared ==> s.taken + s.queue == Numbers(s.scheduled))
    && (forall j: Job :: AccountedFor(s, j))
  }

  lemma TakesInOrder(s: State, a: Act)
    requires !s.cleared ==> s.taken + s.queue == Numbers(s.scheduled)
    requires Allowed(s, a)
    ensures var u := Step(s, a); !u.cleared ==> u.taken + u.queue == Numbers(u.scheduled)
  {
    var u := Step(s, a);
    match a
    case Schedule => assert u.taken + u.queue == (s.taken + s.queue) + [s.scheduled];
    case ScheduleFrom(_) => assert u.taken + u.queue == (s.taken + s.queue) + [s.scheduled];
    case Evaluate(i) =>
      DecideMeaning(s.queue, s.flags);
      if Decide(s.queue, s.flags).Run? {
        assert s.queue == [s.queue[0]] + s.queue[1..];
        assert u.taken + u.queue == s.taken + s.queue;
      }
    case _ =>
  }

  lemma AccountEvaluate(s: State, i: nat, j: Job)
    requires AccountedFor(s, j) && Allowed(s, Evaluate(i))
    ensures AccountedFor(Step(s, Evaluate(i)), j)
  {
    DecideMeaning(s.queue, s.flags);
    RunningUpdate(s.workers, i, Step(s, Evaluate(i)).workers[i], j);
    if s.queue != [] { TimesAppend(s.taken, s.queue[0], j); }
  }

  lemma AccountFinish(s: State, i: nat, j: Job)
    requires AccountedFor(s, j) && Allowed(s, FinishJob(i))
    ensures AccountedFor(Step(s, FinishJob(i)), j)
  {
    RunningUpdate(s.workers, i, Checking, j);
    TimesAppend(s.ran, s.workers[i].job, j);
  }

  /** A worker goes to sleep or wakes up. */
  lemma AccountMove(s: State, i: nat, w: Worker, j: Job)
    requires AccountedFor(s, j) && i < |s.workers| && !s.workers[i].Busy? && !w.Busy?
    ensures AccountedFor(s.(workers := s.workers[i := w]), j)
  {
    RunningUpdate(s.workers, i, w, j);
  }

  lemma AccountStep(s: State, a: Act, j: Job)
    requires AccountedFor(s, j) && Allowed(s, a)
    ensures AccountedFor(Step(s, a), j)
  {
    if a.Evaluate? {
      AccountEvaluate(s, a.worker, j);
    } else if a.FinishJob? {
      AccountFinish(s, a.worker, j);
    } else if a.NotifyAll? {
      RunningSame(s.workers, Step(s, a).workers, j);
    } else if a.NotifyOne? || a.WakeUp? {
      AccountMove(s, a.worker, Checking, j);
    } else if a.Park? {
      AccountMove(s, a.worker, Parked, j);
    }
  }

  lemma NobodyRuns(ws: seq<Worker>, j: Job)
    requires forall i :: 0 <= i < |ws| ==> !ws[i].Busy?
    ensures Running(ws, j) == 0
  {}

  /** Jobs are numbered as they are scheduled: these are in order, none twice, all scheduled. */
  ghost predicate Increasing(js: seq<Job>, scheduled: nat) {
    && (forall i, j :: 0 <= i < j < |js| ==> js[i] < js[j])
    && (forall i :: 0 <= i < |js| ==> js[i] < scheduled)
  }

  lemma IncreasingStep(s: State, a: Act)
    requires Increasing(s.taken + s.queue, s.scheduled) && Allowed(s, a)
    ensures var u := Step(s, a); Increasing(u.taken + u.queue, u.scheduled)
  {
    var u := Step(s, a);
    if a.Schedule? || a.ScheduleFrom? {
      assert u.taken + u.queue == (s.taken + s.queue) + [s.scheduled];
    } else if a.Evaluate? {
      DecideMeaning(s.queue, s.flags);
      if Decide(s.queue, s.flags).Run? {
        assert s.queue == [s.queue[0]] + s.queue[1..];
        assert u.taken + u.queue == s.taken + s.queue;
      }
    } else if a.Clear? {
      assert u.taken + u.queue == (s.taken + s.queue)[..|s.taken|];
    }
  }

  ghost predicate OnceInv(s: State) {
    Increasing(s.taken + s.queue, s.scheduled) && forall j: Job :: AccountedFor(s, j)
  }

  lemma OnceStep(s: State, a: Act)
    requires OnceInv(s) && Allowed(s, a)
    ensures OnceInv(Step(s, a))
  {
    IncreasingStep(s, a);
    forall j: Job ensures AccountedFor(Step(s, a), j) {
      assert AccountedFor(s, j);
      AccountStep(s, a, j);
    }
  }

  lemma {:induction false} OnceRun(s: State, acts: seq<Act>)
    requires OnceInv(s) && AllowedRun(s, acts)
    ensures OnceInv(RunActs(s, acts))
    decreases |acts|
  {
    if acts != [] {
      OnceStep(s, acts[0]);
      OnceRun(Step(s, acts[0]), acts[1..]);
    }
  }

  lemma FreshOnce(n: nat)
    ensures OnceInv(Fresh(n))
  {
    forall k: Job ensures AccountedFor(Fresh(n), k) { NobodyRuns(Fresh(n).workers, k); }
  }

  lemma {:induction false} IncreasingOnce(js: seq<Job>, scheduled: nat, j: Job)
    requires Increasing(js, scheduled)
    ensures Times(js, j) <= 1 && (j >= scheduled ==> Times(js, j) == 0)
    decreases |js|
  {
    if js != [] {
      var rest := js[..|js| - 1];
      IncreasingOnce(rest, js[|js| - 1], j);
      assert js == rest + [js[|js| - 1]];
      TimesAppend(rest, js[|js| - 1], j);
    }
  }

  /** In every interleaving, also with `clear` and any shutdown: jobs are taken in the order in which
      they were scheduled, only scheduled ones, and none is run twice. */
  lemma JobsRunAtMostOnce(n: nat, acts: seq<Act>, j: Job)
    requires AllowedRun(Fresh(n), acts)
    ensures var s := RunActs(Fresh(n), acts);
      && Increasing(s.taken, s.scheduled)
      && Running(s.workers, j) + Times(s.ran, j) <= 1
      && (Running(s.workers, j) + Times(s.ran, j) == 1 <==> j in s.taken)
  {
    FreshOnce(n);
    OnceRun(Fresh(n), acts);
    var s := RunActs(Fresh(n), acts);
    assert s.taken == (s.taken + s.queue)[..|s.taken|];
    IncreasingOnce(s.taken, s.scheduled, j);
    assert AccountedFor(s, j);
  }

  // ------------------------------------------------------- what `clear` drops

  /** Job `j` was scheduled, and neither taken nor still queued. */
  predicate Dropped(s: State, j: Job) {
    j < s.scheduled && j !in s.taken && j !in s.queue
  }

  lemma DroppedStep(s: State, a: Act, j: Job)
    requires Dropped(s, j) && Allowed(s, a)
    ensures Dropped(Step(s, a), j)
  {
    DecideMeaning(s.queue, s.flags);
  }

  lemma {:induction false} DroppedRun(s: State, acts: seq<Act>, j: Job)
    requires Dropped(s, j) && AllowedRun(s, acts)
    ensures Dropped(RunActs(s, acts), j)
    decreases |acts|
  {
    if acts != [] {
      DroppedStep(s, acts[0], j);
      DroppedRun(Step(s, acts[0]), acts[1..], j);
    }
  }

  /** The queue is what is scheduled and not taken: `clear` drops it. */
  lemma QueuedIsDropped(s: State, j: Job)
    requires OnceInv(s) && Allowed(s, Clear) && j in s.queue
    ensures Dropped(Step(s, Clear), j)
  {
    var i :| 0 <= i < |s.queue| && s.queue[i] == j;
    var all := s.taken + s.queue;
    assert all[|s.taken| + i] == j;
    forall k | 0 <= k < |s.taken| ensures s.taken[k] != j { assert all[k] == s.taken[k]; }
  }

  /** In every interleaving: a job that `clear` finds in the queue is never taken and never run. */
  lemma ClearedNeverRuns(n: nat, before: seq<Act>, after: seq<Act>, j: Job)
    requires AllowedRun(Fresh(n), before) && Allowed(RunActs(Fresh(n), before), Clear)
    requires AllowedRun(Step(RunActs(Fresh(n), before), Clear), after)
    requires j in RunActs(Fresh(n), before).queue
    ensures var u := RunActs(Step(RunActs(Fresh(n), before), Clear), after);
      j !in u.taken && j !in u.queue && Running(u.workers, j) == 0 && j !in u.ran
  {
    var s := RunActs(Fresh(n), before);
    FreshOnce(n);
    OnceRun(Fresh(n), before);
    QueuedIsDropped(s, j);
    OnceStep(s, Clear);
    OnceRun(Step(s, Clear), after);
    DroppedRun(Step(s, Clear), after, j);
    var u := RunActs(Step(s, Clear), after);
    assert AccountedFor(u, j);
  }
}
