/** How the thread pool shuts down: what is done when the joins have returned, when they
    return, and exactly when one does not. */
module Shutdown {
  import opened Pool

  // ------------------------------------------------------- graceful shutdown

  /** No TERMINATE, no `clear`, and no scheduling from outside once FINISH is set. */
  predicate Graceful(s: State, a: Act) {
    !a.SetTerminate? && !a.Clear? && (a.Schedule? ==> !GetFlag(s.flags, FLAG_FINISH))
  }

  predicate GracefulRun(s: State, acts: seq<Act>)
    requires AllowedRun(s, acts)
    decreases |acts|
  {
    acts == [] || (Graceful(s, acts[0]) && GracefulRun(Step(s, acts[0]), acts[1..]))
  }

  predicate SomeGone(s: State) {
    exists i :: 0 <= i < |s.workers| && s.workers[i] == Gone
  }

  /** A worker leaves only after FINISH, and the last one leaves an empty queue. */
  predicate DrainInv(s: State) {
    && |s.workers| > 0
    && !s.cleared && !GetFlag(s.flags, FLAG_TERMINATE)
    && (SomeGone(s) ==> GetFlag(s.flags, FLAG_FINISH))
    && (AllGone(s) ==> s.queue == [])
  }

  lemma DrainEvaluate(s: State, k: nat)
    requires DrainInv(s) && Allowed(s, Evaluate(k))
    ensures DrainInv(Step(s, Evaluate(k)))
  {
    var u := Step(s, Evaluate(k));
    DecideMeaning(s.queue, s.flags);
    if !Decide(s.queue, s.flags).Leave? {
      assert u.workers[k] != Gone;
      if SomeGone(u) {
        var i :| 0 <= i < |u.workers| && u.workers[i] == Gone;
        assert s.workers[i] == Gone;
      }
    }
  }

  /** Only leaving the critical section makes a worker go. */
  lemma GoneUnchanged(s: State, a: Act, i: nat)
    requires Allowed(s, a) && !a.Evaluate? && i < |s.workers|
    ensures |Step(s, a).workers| == |s.workers|
    ensures Step(s, a).workers[i] == Gone <==> s.workers[i] == Gone
  {
    match a
    case NotifyAll => assert Step(s, a).workers[i] == WakeParked(s.workers[i]);
    case _ =>
  }

  lemma DrainOther(s: State, a: Act)
    requires DrainInv(s) && Allowed(s, a) && Graceful(s, a) && !a.Evaluate?
    ensures DrainInv(Step(s, a))
  {
    var u := Step(s, a);
    ShutdownBits(s.flags);
    GoneUnchanged(s, a, 0);
    if SomeGone(u) {
      var i :| 0 <= i < |u.workers| && u.workers[i] == Gone;
      GoneUnchanged(s, a, i);
    }
    if AllGone(u) {
      forall i | 0 <= i < |s.workers| ensures s.workers[i] == Gone { GoneUnchanged(s, a, i); }
    }
  }

  lemma {:induction false} DrainRun(s: State, acts: seq<Act>)
    requires DrainInv(s) && Accounted(s) && AllowedRun(s, acts) && GracefulRun(s, acts)
    ensures DrainInv(RunActs(s, acts)) && Accounted(RunActs(s, acts))
    decreases |acts|
  {
    if acts != [] {
      if acts[0].Evaluate? { DrainEvaluate(s, acts[0].worker); } else { DrainOther(s, acts[0]); }
      TakesInOrder(s, acts[0]);
      forall j: Job ensures AccountedFor(Step(s, acts[0]), j) {
        assert AccountedFor(s, j);
        AccountStep(s, acts[0], j);
      }
      DrainRun(Step(s, acts[0]), acts[1..]);
    }
  }

  /** Once all joins have returned the queue is empty, jobs were taken in the order they were
      scheduled, and every scheduled job, also one scheduled by a job during shutdown, ran exactly once. */
  lemma GracefulDrains(n: nat, acts: seq<Act>)
    requires n > 0 && AllowedRun(Fresh(n), acts) && GracefulRun(Fresh(n), acts) && AllGone(RunActs(Fresh(n), acts))
    ensures var s := RunActs(Fresh(n), acts);
      && s.queue == [] && s.taken == Numbers(s.scheduled)
      && multiset(s.ran) == multiset(Numbers(s.scheduled))
  {
    forall j: Job ensures AccountedFor(Fresh(n), j) { NobodyRuns(Fresh(n).workers, j); }
    DrainRun(Fresh(n), acts);
    var s := RunActs(Fresh(n), acts);
    assert s.taken + [] == s.taken;
    forall j: Job ensures multiset(s.ran)[j] == multiset(s.taken)[j] {
      assert AccountedFor(s, j);
      NobodyRuns(s.workers, j);
    }
  }

  // ------------------------------------------------------- abrupt shutdown

  /** Flags once set stay set. */
  lemma FlagsStay(s: State, a: Act)
    requires Allowed(s, a)
    ensures var u := Step(s, a);
      && (GetFlag(u.flags, FLAG_FINISH) <==> GetFlag(s.flags, FLAG_FINISH) || a.SetFinish?)
      && (GetFlag(u.flags, FLAG_TERMINATE) <==> GetFlag(s.flags, FLAG_TERMINATE) || a.SetTerminate?)
      && (GetFlag(u.flags, FLAG_STOPPED) <==> GetFlag(s.flags, FLAG_STOPPED) || a.SetStopped?)
  {
    ShutdownBits(s.flags);
    FlagIsSet(s.flags, FLAG_STOPPED);
  }

  lemma {:induction false} TakesNothing(s: State, acts: seq<Act>)
    requires GetFlag(s.flags, FLAG_TERMINATE) && AllowedRun(s, acts)
    ensures GetFlag(RunActs(s, acts).flags, FLAG_TERMINATE) && RunActs(s, acts).taken == s.taken
    decreases |acts|
  {
    if acts != [] {
      FlagsStay(s, acts[0]);
      DecideMeaning(s.queue, s.flags);
      TakesNothing(Step(s, acts[0]), acts[1..]);
    }
  }

  /** In every interleaving: once TERMINATE is set no queued job is taken any more, whatever is
      queued then or later; only jobs being run are finished. */
  lemma TerminateTakesNothing(s: State, acts: seq<Act>)
    requires Allowed(s, SetTerminate) && AllowedRun(Step(s, SetTerminate), acts)
    ensures RunActs(Step(s, SetTerminate), acts).taken == s.taken
  {
    FlagsStay(s, SetTerminate);
    TakesNothing(Step(s, SetTerminate), acts);
  }

  // ------------------------------------------------------- does the shutdown reach everybody

  /** A shutdown flag is up and nobody is parked or parking. */
  predicate AllReached(s: State) {
    && (GetFlag(s.flags, FLAG_FINISH) || GetFlag(s.flags, FLAG_TERMINATE))
    && MutexFree(s) && !SomeParked(s)
  }

  lemma ReachedStep(s: State, a: Act)
    requires AllReached(s) && Allowed(s, a)
    ensures AllReached(Step(s, a))
  {
    var u := Step(s, a);
    ShutdownBits(s.flags);
    DecideMeaning(s.queue, s.flags);
    forall i | 0 <= i < |u.workers| ensures u.workers[i] != Parked && u.workers[i] != Parking {
      assert s.workers[i] != Parked && s.workers[i] != Parking;
    }
  }

  lemma {:induction false} ReachedRun(s: State, acts: seq<Act>)
    requires AllReached(s) && AllowedRun(s, acts)
    ensures AllReached(RunActs(s, acts))
    decreases |acts|
  {
    if acts != [] {
      ReachedStep(s, acts[0]);
      ReachedRun(Step(s, acts[0]), acts[1..]);
    }
  }

  /** How many steps of its own a worker still takes, without new jobs. */
  function Steps(w: Worker): nat {
    if w == Gone then 0 else if w.Busy? then 2 else 1
  }

  function AllSteps(ws: seq<Worker>): nat {
    if ws == [] then 0 else Steps(ws[0]) + AllSteps(ws[1..])
  }

  lemma {:induction false} AllStepsUpdate(ws: seq<Worker>, i: nat, w: Worker)
    requires i < |ws|
    ensures AllSteps(ws[i := w]) == AllSteps(ws) - Steps(ws[i]) + Steps(w)
  {
    if i > 0 {
      assert ws[i := w][1..] == ws[1..][i - 1 := w];
      AllStepsUpdate(ws[1..], i - 1, w);
    } else {
      assert ws[i := w][1..] == ws[1..];
    }
  }

  lemma {:induction false} AllStepsSame(ws: seq<Worker>, us: seq<Worker>)
    requires |ws| == |us| && forall i :: 0 <= i < |ws| ==> Steps(ws[i]) == Steps(us[i])
    ensures AllSteps(ws) == AllSteps(us)
  {
    if ws != [] {
      AllStepsSame(ws[1..], us[1..]);
    }
  }

  function Remaining(s: State): nat {
    AllSteps(s.workers) + 2 * |s.queue|
  }

  function WorkerSteps(acts: seq<Act>): nat {
    if acts == [] then 0 else (if acts[0].Evaluate? || acts[0].FinishJob? then 1 else 0) + WorkerSteps(acts[1..])
  }

  function Pushes(acts: seq<Act>): nat {
    if acts == [] then 0 else (if acts[0].Schedule? || acts[0].ScheduleFrom? then 1 else 0) + Pushes(acts[1..])
  }

  lemma RemainingWorker(s: State, a: Act)
    requires AllReached(s) && Allowed(s, a) && (a.Evaluate? || a.FinishJob?)
    ensures Remaining(Step(s, a)) < Remaining(s)
  {
    DecideMeaning(s.queue, s.flags);
    AllStepsUpdate(s.workers, a.worker, Step(s, a).workers[a.worker]);
  }

  lemma RemainingOther(s: State, a: Act)
    requires AllReached(s) && Allowed(s, a) && !a.Evaluate? && !a.FinishJob?
    ensures Remaining(Step(s, a)) <= Remaining(s) + if a.Schedule? || a.ScheduleFrom? then 2 else 0
  {
    if a.NotifyAll? {
      AllStepsSame(s.workers, Step(s, a).workers);
    }
  }

  lemma {:induction false} ReachedRunIsBounded(s: State, acts: seq<Act>)
    requires AllReached(s) && AllowedRun(s, acts)
    ensures AllReached(RunActs(s, acts))
    ensures WorkerSteps(acts) + Remaining(RunActs(s, acts)) <= Remaining(s) + 2 * Pushes(acts)
    decreases |acts|
  {
    if acts != [] {
      var a := acts[0];
      ReachedStep(s, a);
      if a.Evaluate? || a.FinishJob? { RemainingWorker(s, a); } else { RemainingOther(s, a); }
      ReachedRunIsBounded(Step(s, a), acts[1..]);
    }
  }

  predicate CanStep(s: State, i: nat) {
    Allowed(s, Evaluate(i)) || Allowed(s, FinishJob(i))
  }

  lemma NotifyAllReaches(s: State)
    requires GetFlag(s.flags, FLAG_FINISH) || GetFlag(s.flags, FLAG_TERMINATE)
    requires MutexFree(s)
    ensures AllReached(Step(s, NotifyAll))
  {
    var u := Step(s, NotifyAll);
    assert forall i :: 0 <= i < |s.workers| ==> u.workers[i] == WakeParked(s.workers[i]);
  }

  /** `notify_all` of a shutdown while nobody is parking: in every run after it the workers take
      only so many steps, and until all of them have left, one of them can take its next. So
      once jobs stop scheduling jobs every worker leaves, and every join returns. */
  lemma ReachesEverybody(s: State, acts: seq<Act>)
    requires GetFlag(s.flags, FLAG_FINISH) || GetFlag(s.flags, FLAG_TERMINATE)
    requires MutexFree(s) && AllowedRun(Step(s, NotifyAll), acts)
    ensures var u := Step(s, NotifyAll); var v := RunActs(u, acts);
      && WorkerSteps(acts) <= Remaining(u) + 2 * Pushes(acts)
      && (AllGone(v) || exists i :: CanStep(v, i))
  {
    NotifyAllReaches(s);
    ReachedRunIsBounded(Step(s, NotifyAll), acts);
    var v := RunActs(Step(s, NotifyAll), acts);
    if i: nat :| i < |v.workers| && v.workers[i] != Gone {
      assert v.workers[i] != Parked && v.workers[i] != Parking;
      assert CanStep(v, i);
    }
  }

  ghost predicate CanStillPark(s: State) {
    exists acts :: AllowedRun(s, acts) && SomeParked(RunActs(s, acts))
  }

  /** In every state in which `terminate` notifies all: a worker can go to sleep afterwards if and
      only if one holds the mutex there, having found the predicate false. */
  lemma MissesParkingWorker(s: State)
    requires GetFlag(s.flags, FLAG_FINISH) || GetFlag(s.flags, FLAG_TERMINATE)
    ensures CanStillPark(Step(s, NotifyAll)) <==> !MutexFree(s)
  {
    var u := Step(s, NotifyAll);
    if MutexFree(s) {
      NotifyAllReaches(s);
      forall acts | AllowedRun(u, acts) ensures !SomeParked(RunActs(u, acts)) {
        ReachedRun(u, acts);
      }
    } else {
      var i :| 0 <= i < |s.workers| && s.workers[i] == Parking;
      assert u.workers[i] == WakeParked(s.workers[i]);
      var v := Step(u, Park(i));
      assert v.workers[i] == Parked && AllowedRun(v, []);
      RunCons(u, Park(i), []);
    }
  }

  // ------------------------------------------------------- a worker left asleep

  /** Worker `i` sleeps, no notification is to come, and nobody else is left. */
  predicate Stranded(s: State, i: nat) {
    && i < |s.workers| && s.workers[i] == Parked && s.toNotify == 0
    && forall j :: 0 <= j < |s.workers| && j != i ==> s.workers[j] == Gone
  }

  /** No job from outside, no spurious wake-up, and no other `notify_all`. */
  predicate Unaided(acts: seq<Act>) {
    forall k :: 0 <= k < |acts| ==> !acts[k].Schedule? && !acts[k].WakeUp? && !acts[k].NotifyAll?
  }

  /** It sleeps for ever: the join never returns. */
  lemma {:induction false} StrandedStays(s: State, i: nat, acts: seq<Act>)
    requires Stranded(s, i) && AllowedRun(s, acts) && Unaided(acts)
    ensures Stranded(RunActs(s, acts), i)
    decreases |acts|
  {
    if acts != [] {
      assert !acts[0].Schedule? && !acts[0].WakeUp? && !acts[0].NotifyAll?;
      assert forall k :: 0 <= k < |acts| - 1 ==> acts[1..][k] == acts[k + 1];
      StrandedStays(Step(s, acts[0]), i, acts[1..]);
    }
  }

  ghost predicate CanStrand(s: State) {
    exists acts, i :: AllowedRun(s, acts) && Unaided(acts) && Stranded(RunActs(s, acts), i)
  }

  /** What holds in every run: one worker at most is parking, and then no job is queued. */
  predicate ParkingInv(s: State) {
    && ParkedBound(s)
    && forall i, j :: 0 <= i < |s.workers| && 0 <= j < |s.workers| ==>
         s.workers[i] == Parking && s.workers[j] == Parking ==> i == j
  }

  lemma ParkingStep(s: State, a: Act)
    requires ParkingInv(s) && Allowed(s, a)
    ensures ParkingInv(Step(s, a))
  {
    BoundStep(s, a);
    var u := Step(s, a);
    forall i | 0 <= i < |u.workers| && u.workers[i] == Parking
      ensures s.workers[i] == Parking || (a == Evaluate(i) && MutexFree(s))
    {}
  }

  lemma {:induction false} ParkingRun(s: State, acts: seq<Act>)
    requires ParkingInv(s) && AllowedRun(s, acts)
    ensures ParkingInv(RunActs(s, acts))
    decreases |acts|
  {
    if acts != [] {
      ParkingStep(s, acts[0]);
      ParkingRun(Step(s, acts[0]), acts[1..]);
    }
  }

  /** A shutdown under way, nobody parking, nothing queued, and worker `i` asleep. */
  predicate Leaving(s: State, i: nat) {
    && (GetFlag(s.flags, FLAG_FINISH) || GetFlag(s.flags, FLAG_TERMINATE))
    && s.queue == [] && s.toNotify == 0 && i < |s.workers| && s.workers[i] == Parked
    && forall j :: 0 <= j < |s.workers| && j != i ==> s.workers[j] != Parked && s.workers[j] != Parking
  }

  lemma OneLeaves(s: State, i: nat, j: nat) returns (a: Act)
    requires Leaving(s, i) && j < |s.workers| && j != i && s.workers[j] != Gone
    ensures Allowed(s, a) && Unaided([a])
    ensures Leaving(Step(s, a), i) && AllSteps(Step(s, a).workers) < AllSteps(s.workers)
  {
    a := if s.workers[j] == Checking then Evaluate(j) else FinishJob(j);
    DecideMeaning(s.queue, s.flags);
    AllStepsUpdate(s.workers, j, Step(s, a).workers[j]);
  }

  /** The others leave, one step at a time. */
  lemma {:induction false} OthersLeave(s: State, i: nat) returns (acts: seq<Act>)
    requires Leaving(s, i)
    ensures AllowedRun(s, acts) && Unaided(acts) && Stranded(RunActs(s, acts), i)
    decreases AllSteps(s.workers)
  {
    if j: nat :| j < |s.workers| && j != i && s.workers[j] != Gone {
      var a := OneLeaves(s, i, j);
      var rest := OthersLeave(Step(s, a), i);
      RunCons(s, a, rest);
      acts := [a] + rest;
      assert [a][0] == a;
    } else {
      acts := [];
    }
  }

  /** The notifications still to be issued find nobody asleep. */
  lemma {:induction false} NotifiedInVain(s: State, i: nat) returns (acts: seq<Act>)
    requires i < |s.workers| && s.workers[i] == Parking && s.queue == []
    requires GetFlag(s.flags, FLAG_FINISH) || GetFlag(s.flags, FLAG_TERMINATE)
    requires forall j :: 0 <= j < |s.workers| && j != i ==> s.workers[j] != Parked && s.workers[j] != Parking
    ensures AllowedRun(s, acts) && Unaided(acts) && Stranded(RunActs(s, acts), i)
    decreases s.toNotify
  {
    var a := if s.toNotify > 0 then NotifyNobody else Park(i);
    var rest: seq<Act>;
    if s.toNotify > 0 {
      rest := NotifiedInVain(Step(s, a), i);
    } else {
      rest := OthersLeave(Step(s, a), i);
    }
    RunCons(s, a, rest);
    acts := [a] + rest;
  }

  lemma StrandsParking(s: State)
    requires ParkingInv(s) && !MutexFree(s)
    requires GetFlag(s.flags, FLAG_FINISH) || GetFlag(s.flags, FLAG_TERMINATE)
    ensures CanStrand(Step(s, NotifyAll))
  {
    var u := Step(s, NotifyAll);
    var i :| 0 <= i < |s.workers| && s.workers[i] == Parking;
    assert forall j :: 0 <= j < |s.workers| ==> u.workers[j] == WakeParked(s.workers[j]);
    var acts := NotifiedInVain(u, i);
  }

  /** In every reachable state in which `terminate` notifies all, the flag being set: a worker can be
      left asleep for ever, with all others gone and no notification to come, if and only if
      a worker holds the mutex there, having found the wait predicate false before the flag was set. */
  lemma StrandsIff(n: nat, before: seq<Act>)
    requires AllowedRun(Fresh(n), before)
    requires var s := RunActs(Fresh(n), before); GetFlag(s.flags, FLAG_FINISH) || GetFlag(s.flags, FLAG_TERMINATE)
    ensures var s := RunActs(Fresh(n), before); CanStrand(Step(s, NotifyAll)) <==> !MutexFree(s)
  {
    var s := RunActs(Fresh(n), before);
    ParkingRun(Fresh(n), before);
    if MutexFree(s) {
      NotifyAllReaches(s);
      forall acts, i | AllowedRun(Step(s, NotifyAll), acts) ensures !Stranded(RunActs(Step(s, NotifyAll), acts), i) {
        ReachedRun(Step(s, NotifyAll), acts);
      }
    } else {
      StrandsParking(s);
    }
  }

  /** It happens with a single worker: it finds nothing to do, the flag is set and everybody
      notified, and only then does it go to sleep. */
  lemma StrandedWorker()
    ensures var acts := [Evaluate(0), SetFinish, NotifyAll, Park(0)];
      && AllowedRun(Fresh(1), acts) && Stranded(RunActs(Fresh(1), acts), 0)
      && GetFlag(RunActs(Fresh(1), acts).flags, FLAG_FINISH)
  {
    var s0 := Fresh(1);
    DecideMeaning(s0.queue, s0.flags);
    ShutdownBits(s0.flags);
    var s1 := Step(s0, Evaluate(0));
    var s2 := Step(s1, SetFinish);
    var s3 := Step(s2, NotifyAll);
    assert s3.workers[0] == Parking;
    assert AllowedRun(Step(s3, Park(0)), []);
    RunCons(s3, Park(0), []);
    RunCons(s2, NotifyAll, [Park(0)]);
    RunCons(s1, SetFinish, [NotifyAll, Park(0)]);
    RunCons(s0, Evaluate(0), [SetFinish, NotifyAll, Park(0)]);
    assert [Evaluate(0)] + [SetFinish, NotifyAll, Park(0)] == [Evaluate(0), SetFinish, NotifyAll, Park(0)];
    assert [SetFinish] + [NotifyAll, Park(0)] == [SetFinish, NotifyAll, Park(0)];
    assert [NotifyAll] + [Park(0)] == [NotifyAll, Park(0)];
    assert [Park(0)] + [] == [Park(0)];
  }

  // ------------------------------------------------------- stopped

  /** `STOPPED` is set once all workers are gone, and they never come back. */
  predicate StoppedOk(s: State) {
    GetFlag(s.flags, FLAG_STOPPED) ==> AllGone(s)
  }

  lemma StoppedStep(s: State, a: Act)
    requires StoppedOk(s) && Allowed(s, a)
    ensures StoppedOk(Step(s, a))
  {
    ShutdownBits(s.flags);
    if AllGone(s) {
      forall i | 0 <= i < |Step(s, a).workers| ensures Step(s, a).workers[i] == Gone { GoneUnchanged(s, a, i); }
    }
  }

  lemma {:induction false} StoppedRun(s: State, acts: seq<Act>)
    requires StoppedOk(s) && AllowedRun(s, acts)
    ensures StoppedOk(RunActs(s, acts))
    decreases |acts|
  {
    if acts != [] {
      StoppedStep(s, acts[0]);
      StoppedRun(Step(s, acts[0]), acts[1..]);
    }
  }

  /** So a destructor that finds the flag set has no thread left to wait for. */
  lemma StoppedMeansGone(n: nat, acts: seq<Act>)
    requires AllowedRun(Fresh(n), acts) && GetFlag(RunActs(Fresh(n), acts).flags, FLAG_STOPPED)
    ensures AllGone(RunActs(Fresh(n), acts))
  {
    StoppedRun(Fresh(n), acts);
  }
}
