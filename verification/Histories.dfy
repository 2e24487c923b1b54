/** The history is what the steps did: which futures were completed, with what, which were
    cancelled, and which task got what from which `await`, in every run. */
module Histories {
  import opened Options
  import opened LoopModel
  import opened FutureModel
  import opened Machine
  import opened Order
  import opened WakeTokens
  import opened Futures
  import opened Runs
  import opened Ownership
  import opened Cycles

  type Completion = (FutureId, Value)

  /** `complete`, and the return of the worker that `task()` wraps around a function. */
  function CompletedBy(w: World, a: Act): Option<Completion>
    requires Allowed(w, a)
  {
    if a.Complete? then Some((a.f, a.v))
    else if a.Return? && Self(w).id in w.wrapped then Some((w.wrapped[Self(w).id], a.v))
    else None
  }

  /** The cycle from `w` deletes the task it picks. */
  ghost predicate Deletes(w: World) {
    Index(w) < |All(w)| &&
    var t := All(w)[Index(w)].id;
    t in w.hist.ended && !(t == w.hist.base && Unfinished(w))
  }

  /** `cancel`, and the deletion of a task bound to a future that is not completed. */
  ghost function CancelledBy(w: World, a: Act): Option<FutureId> {
    if a.Cancel? then Some(a.f)
    else if a.Cycle? && Deletes(w) then
      var r := All(w)[Index(w)].result;
      if r.Some? && r.value < |w.futures| && !w.futures[r.value].completed then r else None
    else None
  }

  /** The cycle from `w` gives control back to the task it picks. */
  ghost predicate Resumes(w: World) {
    Index(w) < |All(w)| &&
    var t := All(w)[Index(w)];
    t.id in w.hist.started && t.id !in w.hist.ended && !Sleeps(w, t)
  }

  /** What `await` answers when it looks at the future. */
  function Answer(f: Future<Value>): Outcome<Value> {
    match (f.cancelled, f.completed)
    case (true, _) => ThrewCancelled
    case (false, true) => Returned(f.value)
    case (false, false) => ThrewFailed
  }

  /** An `await` that finds its future completed, and one that is resumed. */
  ghost function AwaitedBy(w: World, a: Act): Option<AwaitRecord>
    requires Allowed(w, a)
  {
    if a.AwaitReady? then Some(AwaitRecord(Self(w).id, a.f, Answer(w.futures[a.f])))
    else if a.Cycle? && Resumes(w) then
      var t := All(w)[Index(w)].id;
      if t in w.position && w.position[t] < |w.futures|
      then Some(AwaitRecord(t, w.position[t], Answer(w.futures[w.position[t]]))) else None
    else None
  }

  function Plus<T>(s: seq<T>, x: Option<T>): seq<T> {
    if x.Some? then s + [x.value] else s
  }

  /** The await a task is suspended in: from the step that blocks it to the cycle that resumes it. */
  ghost function PositionAfter(w: World, a: Act): map<TaskId, FutureId>
    requires Allowed(w, a)
  {
    if a.AwaitBlock? then w.position[Self(w).id := a.f]
    else if a.Cycle? && Resumes(w) then w.position - {All(w)[Index(w)].id}
    else w.position
  }

  ghost predicate Recorded(w: World, a: Act, u: World)
    requires Allowed(w, a)
  {
    && u.hist.completions == Plus(w.hist.completions, CompletedBy(w, a))
    && u.hist.cancels == Plus(w.hist.cancels, CancelledBy(w, a))
    && u.hist.awaits == Plus(w.hist.awaits, AwaitedBy(w, a))
    && u.position == PositionAfter(w, a)
  }

  lemma SliceResolves(w: World, a: Act)
    requires Allowed(w, a) && !a.Cycle?
    ensures Step(w, a).hist.completions == Plus(w.hist.completions, CompletedBy(w, a))
    ensures Step(w, a).hist.cancels == Plus(w.hist.cancels, if a.Cancel? then Some(a.f) else None)
  {
    if !Resolves(a) { OthersKeepFlags(w, a); }
  }

  lemma SliceAwaits(w: World, a: Act)
    requires Allowed(w, a) && !a.Cycle?
    ensures Step(w, a).hist.awaits == Plus(w.hist.awaits,
      if a.AwaitReady? then Some(AwaitRecord(Self(w).id, a.f, Answer(w.futures[a.f]))) else None)
  {}

  lemma SlicePositions(w: World, a: Act)
    requires Allowed(w, a) && !a.Cycle?
    ensures Step(w, a).position == if a.AwaitBlock? then w.position[Self(w).id := a.f] else w.position
  {}

  /** What the dispatch of the current task records. */
  ghost predicate RecordedAt(w: World, u: World)
    requires w.loop.current < |w.loop.tasks|
  {
    var t := Self(w);
    var erased := t.status == Done && !u.phase.Orphaned?;
    && u.hist.completions == w.hist.completions
    && u.hist.cancels == Plus(w.hist.cancels,
         if erased && t.result.Some? && t.result.value < |w.futures| && !w.futures[t.result.value].completed
         then t.result else None)
    && u.hist.awaits == Plus(w.hist.awaits,
         if t.status == Exec && t.id in w.position && w.position[t.id] < |w.futures|
         then Some(AwaitRecord(t.id, w.position[t.id], Answer(w.futures[w.position[t.id]]))) else None)
    && u.position == (if t.status == Exec then w.position - {t.id} else w.position)
  }

  lemma CleanUpRecords(w: World)
    requires w.loop.current < |w.loop.tasks| && w.phase.Idle? && Self(w).status == Done
    ensures RecordedAt(w, CleanUp(w))
  {
    CleanUpFlags(w);
  }

  lemma ResumeRecords(w: World)
    requires w.loop.current < |w.loop.tasks| && w.phase.Idle? && Self(w).status == Exec
    requires forall t :: t in w.position ==> w.position[t] < |w.futures|
    ensures RecordedAt(w, Resume(w))
  {
    assert Self(w).id !in w.position ==> w.position - {Self(w).id} == w.position;
  }

  lemma DispatchRecords(w: World)
    requires w.loop.current < |w.loop.tasks| && w.phase.Idle?
    requires forall t :: t in w.position ==> w.position[t] < |w.futures|
    ensures RecordedAt(w, Dispatch(w))
  {
    if Self(w).status == Done { CleanUpRecords(w); } else if Self(w).status == Exec { ResumeRecords(w); }
  }

  lemma DrainNames(w: World)
    requires Inv(w) && Allowed(w, Cycle)
    ensures WakesOnlyWaiting(w) && Index(w) < |All(w)| && Selecting(Drain(w))
    ensures Self(Drain(w)).id == All(w)[Index(w)].id && Self(Drain(w)).result == All(w)[Index(w)].result
  {
    CycleKeepsNames(w);
    PicksAt(w);
  }

  lemma RecordedFrom(w: World, d: World, u: World)
    requires Allowed(w, Cycle) && d.loop.current < |d.loop.tasks| && RecordedAt(d, u)
    requires d.hist == w.hist && d.position == w.position && d.futures == w.futures && Index(w) < |All(w)|
    requires Self(d).id == All(w)[Index(w)].id && Self(d).result == All(w)[Index(w)].result
    requires Resumes(w) <==> Self(d).status == Exec
    requires Deletes(w) <==> Self(d).status == Done && !u.phase.Orphaned?
    ensures Recorded(w, Cycle, u)
  {}

  lemma CycleRecords(w: World)
    requires Sound(w) && Allowed(w, Cycle)
    ensures Recorded(w, Cycle, Step(w, Cycle))
  {
    DrainNames(w);
    PicksAt(w);
    CycleAt(w);
    StartedIff(w, Index(w));
    forall t | t in w.position ensures w.position[t] < |w.futures| {
      assert PositionOk(w, t);
    }
    DispatchRecords(Drain(w));
    RecordedFrom(w, Drain(w), Step(w, Cycle));
  }

  lemma StepRecords(w: World, a: Act)
    requires Sound(w) && Allowed(w, a)
    ensures Recorded(w, a, Step(w, a))
  {
    if a.Cycle? {
      CycleRecords(w);
    } else {
      SliceResolves(w, a);
      SliceAwaits(w, a);
      SlicePositions(w, a);
    }
  }

  // ------------------------------------------------------- over runs

  ghost function Completions(w: World, acts: seq<Act>): seq<Completion>
    requires AllowedRun(w, acts)
    decreases |acts|
  {
    if acts == [] then [] else Plus([], CompletedBy(w, acts[0])) + Completions(Step(w, acts[0]), acts[1..])
  }

  ghost function Cancels(w: World, acts: seq<Act>): seq<FutureId>
    requires AllowedRun(w, acts)
    decreases |acts|
  {
    if acts == [] then [] else Plus([], CancelledBy(w, acts[0])) + Cancels(Step(w, acts[0]), acts[1..])
  }

  ghost function Awaits(w: World, acts: seq<Act>): seq<AwaitRecord>
    requires AllowedRun(w, acts)
    decreases |acts|
  {
    if acts == [] then [] else Plus([], AwaitedBy(w, acts[0])) + Awaits(Step(w, acts[0]), acts[1..])
  }

  lemma PlusAnd<T>(s: seq<T>, x: Option<T>, rest: seq<T>)
    ensures Plus(s, x) + rest == s + (Plus([], x) + rest)
  {}

  ghost predicate Told(w: World, acts: seq<Act>, u: World)
    requires AllowedRun(w, acts)
  {
    && u.hist.completions == w.hist.completions + Completions(w, acts)
    && u.hist.cancels == w.hist.cancels + Cancels(w, acts)
    && u.hist.awaits == w.hist.awaits + Awaits(w, acts)
  }

  lemma ToldNext(w: World, acts: seq<Act>, u: World)
    requires acts != [] && AllowedRun(w, acts) && Recorded(w, acts[0], Step(w, acts[0]))
    requires Told(Step(w, acts[0]), acts[1..], u)
    ensures Told(w, acts, u)
  {
    var v := Step(w, acts[0]);
    PlusAnd(w.hist.completions, CompletedBy(w, acts[0]), Completions(v, acts[1..]));
    PlusAnd(w.hist.cancels, CancelledBy(w, acts[0]), Cancels(v, acts[1..]));
    PlusAnd(w.hist.awaits, AwaitedBy(w, acts[0]), Awaits(v, acts[1..]));
  }

  lemma {:induction false} RunRecords(w: World, acts: seq<Act>)
    requires Sound(w) && AllowedRun(w, acts)
    ensures Told(w, acts, Run(w, acts))
    decreases |acts|
  {
    if acts != [] {
      StepRecords(w, acts[0]);
      StepKeepsSound(w, acts[0]);
      RunRecords(Step(w, acts[0]), acts[1..]);
      ToldNext(w, acts, Run(w, acts));
    }
  }

  /** Over every run: the history has grown by what the steps of the run did, in order. */
  lemma HistoryIsWhatWasDone(w: World, acts: seq<Act>)
    requires Initial(w) && AllowedRun(w, acts)
    ensures var u := Run(w, acts);
      && u.hist.completions == w.hist.completions + Completions(w, acts)
      && u.hist.cancels == w.hist.cancels + Cancels(w, acts)
      && u.hist.awaits == w.hist.awaits + Awaits(w, acts)
  {
    SoundInitially(w);
    RunRecords(w, acts);
  }

  // ------------------------------------------------------- one await

  /** What the awaits of `t` have answered. */
  function Answers(awaits: seq<AwaitRecord>, t: TaskId): seq<AwaitRecord> {
    if awaits == [] then []
    else
      var last := awaits[|awaits| - 1];
      Answers(awaits[..|awaits| - 1], t) + if last.task == t then [last] else []
  }

  lemma AnswersPlus(awaits: seq<AwaitRecord>, r: Option<AwaitRecord>, t: TaskId)
    ensures Answers(Plus(awaits, r), t) == Plus(Answers(awaits, t), if r.Some? && r.value.task == t then r else None)
  {
    if r.Some? { assert (awaits + [r.value])[..|awaits|] == awaits; }
  }

  /** The cycle from `w` resumes `t`. */
  ghost predicate ResumesTask(w: World, a: Act, t: TaskId) {
    a.Cycle? && Resumes(w) && All(w)[Index(w)].id == t
  }

  lemma SuspendedRecords(w: World, a: Act, u: World, t: TaskId)
    requires Allowed(w, a) && Recorded(w, a, u) && PositionOk(w, t) && t in w.position && !ResumesTask(w, a, t)
    ensures t in u.position && u.position[t] == w.position[t]
    ensures Answers(u.hist.awaits, t) == Answers(w.hist.awaits, t)
  {
    AnswersPlus(w.hist.awaits, AwaitedBy(w, a), t);
  }

  /** A suspended task stays suspended and gets no answer until it is resumed. */
  lemma StaysSuspended(w: World, a: Act, t: TaskId)
    requires Sound(w) && Allowed(w, a) && t in w.position && !ResumesTask(w, a, t)
    ensures var u := Step(w, a);
      t in u.position && u.position[t] == w.position[t] && Answers(u.hist.awaits, t) == Answers(w.hist.awaits, t)
  {
    assert PositionOk(w, t);
    StepRecords(w, a);
    SuspendedRecords(w, a, Step(w, a), t);
  }

  lemma AwakeIsResolved(w: World, t: TaskId)
    requires OrderInv(w) && TokenAt(w, t) && PositionOk(w, t) && t in w.position
    requires Selecting(w) && Self(w).status == Exec && Self(w).id == t
    ensures w.futures[w.position[t]].Resolved()
  {
    IdsIncrease(w);
    WokenMeansResolved(w, t);
  }

  lemma ResumedIsResolved(w: World, t: TaskId)
    requires Inv(w) && EndInv(w) && Allowed(w, Cycle) && t in w.position && ResumesTask(w, Cycle, t)
    ensures w.position[t] < |w.futures| && w.futures[w.position[t]].Resolved()
  {
    assert PositionOk(w, t) && TokenAt(w, t);
    DrainNames(w);
    PicksAt(w);
    StartedIff(w, Index(w));
    PositionDrain(w, t);
    TokensDrain(w, t);
    AwakeIsResolved(Drain(w), t);
  }

  /** The cycle from `w` resumes `t` in its `await` on `f`, which is resolved, with one answer,
      about that future. */
  ghost predicate AnswersTask(w: World, a: Act, t: TaskId, f: FutureId) {
    && Allowed(w, a) && ResumesTask(w, a, t) && f < |w.futures| && w.futures[f].Resolved()
    && t !in Step(w, a).position
    && Step(w, a).hist.awaits == w.hist.awaits + [AwaitRecord(t, f, Answer(w.futures[f]))]
  }

  lemma ResumedWithAnswer(w: World, t: TaskId)
    requires Sound(w) && Allowed(w, Cycle) && t in w.position && ResumesTask(w, Cycle, t)
    ensures AnswersTask(w, Cycle, t, w.position[t])
  {
    ResumedIsResolved(w, t);
    StepRecords(w, Cycle);
  }

  ghost predicate SuspendedIn(w: World, t: TaskId, f: FutureId, answers: seq<AwaitRecord>) {
    t in w.position && w.position[t] == f && Answers(w.hist.awaits, t) == answers
  }

  lemma SuspendedStep(w: World, a: Act, t: TaskId, f: FutureId, answers: seq<AwaitRecord>)
    requires Sound(w) && Allowed(w, a) && SuspendedIn(w, t, f, answers) && !ResumesTask(w, a, t)
    ensures Sound(Step(w, a)) && SuspendedIn(Step(w, a), t, f, answers)
  {
    StaysSuspended(w, a, t);
    StepKeepsSound(w, a);
  }

  lemma {:induction false} AnsweredOnce(w: World, acts: seq<Act>, t: TaskId, f: FutureId, answers: seq<AwaitRecord>)
    returns (k: nat)
    requires Sound(w) && AllowedRun(w, acts) && SuspendedIn(w, t, f, answers)
    ensures k <= |acts| && AllowedRun(w, acts[..k]) && SuspendedIn(Run(w, acts[..k]), t, f, answers)
    ensures k < |acts| ==> AnswersTask(Run(w, acts[..k]), acts[k], t, f)
    decreases |acts|
  {
    if acts == [] {
      k := 0;
    } else if ResumesTask(w, acts[0], t) {
      k := 0;
      assert acts[..0] == [];
      ResumedWithAnswer(w, t);
    } else {
      SuspendedStep(w, acts[0], t, f, answers);
      var j := AnsweredOnce(Step(w, acts[0]), acts[1..], t, f, answers);
      k := j + 1;
      RunPrefix(w, acts, j);
    }
  }

  /** Over every run: a task that blocks in `await` on `f` stays suspended until a cycle gives it
      control, and that one answers it, once, about `f`, which is resolved by then. `k` is the
      place of that cycle, or the end of the run. */
  lemma AwaitIsAnsweredOnce(w: World, before: seq<Act>, f: FutureId, after: seq<Act>) returns (k: nat)
    requires Initial(w) && AllowedRun(w, before) && Allowed(Run(w, before), AwaitBlock(f))
    requires AllowedRun(Step(Run(w, before), AwaitBlock(f)), after)
    ensures var s := Run(w, before);
      var t, s1 := Self(s).id, Step(s, AwaitBlock(f));
      && k <= |after| && AllowedRun(s1, after[..k])
      && SuspendedIn(Run(s1, after[..k]), t, f, Answers(s.hist.awaits, t))
      && (k < |after| ==> AnswersTask(Run(s1, after[..k]), after[k], t, f))
  {
    var s := Run(w, before);
    ReachableSound(w, before);
    StepKeepsSound(s, AwaitBlock(f));
    StepRecords(s, AwaitBlock(f));
    k := AnsweredOnce(Step(s, AwaitBlock(f)), after, Self(s).id, f, Answers(s.hist.awaits, Self(s).id));
  }
}
