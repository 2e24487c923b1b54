/** What a task's function returns is what the task's future holds, and what every `await` on
    it gets, in every run. */
module Results {
  import opened LoopModel
  import opened FutureModel
  import opened Machine
  import opened Order
  import opened Futures
  import opened Runs
  import opened Ownership
  import opened Cycles

  predicate ReturnsNow(w: World, a: Act, t: TaskId)
    requires Allowed(w, a)
  {
    a.Return? && Self(w).id == t
  }

  /** The values that the worker of `t` returns in the steps `acts`. */
  function Returns(w: World, acts: seq<Act>, t: TaskId): seq<Value>
    requires AllowedRun(w, acts)
    decreases |acts|
  {
    if acts == [] then []
    else (if ReturnsNow(w, acts[0], t) then [acts[0].v] else []) + Returns(Step(w, acts[0]), acts[1..], t)
  }

  predicate HasReturned(w: World, t: TaskId) {
    t in w.hist.ended && w.hist.ended[t] == Finished
  }

  lemma CompletesWithValue(w: World, v: Value, t: TaskId, f: FutureId)
    requires Allowed(w, Return(v)) && Self(w).id == t && t in w.wrapped && w.wrapped[t] == f && f < |w.futures|
    ensures f < |DoReturn(w, v).futures| && DoReturn(w, v).futures[f].value == v
  {}

  lemma EndedSo(w: World, a: Act, u: World, t: TaskId)
    requires Allowed(w, a) && !a.Cycle? && (GivesBack(a) ==> Self(w).id !in w.hist.ended)
    requires u.hist.ended ==
      if EndingOf(a).None? then w.hist.ended else w.hist.ended[Self(w).id := EndingOf(a).value]
    ensures ReturnsNow(w, a, t) ==> !HasReturned(w, t) && HasReturned(u, t)
    ensures !ReturnsNow(w, a, t) ==> (HasReturned(u, t) <==> HasReturned(w, t))
  {}

  /** Only its own return ends a task as `Finished`. */
  lemma ReturnEnds(w: World, a: Act, t: TaskId)
    requires Sound(w) && Allowed(w, a)
    ensures ReturnsNow(w, a, t) ==> !HasReturned(w, t) && HasReturned(Step(w, a), t)
    ensures !ReturnsNow(w, a, t) ==> (HasReturned(Step(w, a), t) <==> HasReturned(w, t))
  {
    if a.Cycle? {
      CycleEndsNothing(w);
    } else {
      EndsAfter(w, a);
      if GivesBack(a) { CurrentHasNotEnded(w, a); }
      EndedSo(w, a, Step(w, a), t);
    }
  }

  lemma ReturnStep(w: World, a: Act, t: TaskId, f: FutureId)
    requires Sound(w) && Allowed(w, a) && Owns(w, t, f)
    ensures f < |Step(w, a).futures|
    ensures ReturnsNow(w, a, t) ==> Step(w, a).futures[f].value == a.v
    ensures HasReturned(w, t) ==> Step(w, a).futures[f].value == w.futures[f].value
  {
    StepKeepsResolved(w, a);
    if ReturnsNow(w, a, t) { CompletesWithValue(w, a.v, t, f); }
    if HasReturned(w, t) && ReturnsNow(w, a, t) { CurrentHasNotEnded(w, a); }
  }

  lemma {:induction false} RunReturns(w: World, acts: seq<Act>, t: TaskId, f: FutureId)
    requires Sound(w) && Owns(w, t, f) && AllowedRun(w, acts) && Untouched(w, acts, t, f)
    ensures var u := Run(w, acts);
      && f < |u.futures|
      && Returns(w, acts, t) == (if !HasReturned(w, t) && HasReturned(u, t) then [u.futures[f].value] else [])
      && (HasReturned(w, t) ==> HasReturned(u, t) && u.futures[f].value == w.futures[f].value)
    decreases |acts|
  {
    if acts != [] {
      ReturnEnds(w, acts[0], t);
      ReturnStep(w, acts[0], t, f);
      OwnsStep(w, acts[0], t, f);
      StepKeepsSound(w, acts[0]);
      RunReturns(Step(w, acts[0]), acts[1..], t, f);
    }
  }

  /** Every `await` on `f` had outcome `o`. */
  ghost predicate AllGot(u: World, f: FutureId, o: Outcome<Value>) {
    forall r :: r in u.hist.awaits && r.future == f ==> r.outcome == o
  }

  lemma OwnedAnswers(u: World, t: TaskId, f: FutureId)
    requires FutureInv(u) && Owns(u, t, f)
    ensures if HasReturned(u, t)
      then u.futures[f].completed && !u.futures[f].cancelled && AllGot(u, f, Returned(u.futures[f].value))
      else !u.futures[f].completed && AllGot(u, f, ThrewCancelled)
  {
    forall r | r in u.hist.awaits && r.future == f ensures RecordOk(u, r) {
      var k :| 0 <= k < |u.hist.awaits| && u.hist.awaits[k] == r;
    }
  }

  lemma SpawnedOwns(s: World)
    requires Sound(s) && Allowed(s, Spawn(true))
    ensures var s1 := Step(s, Spawn(true));
      Sound(s1) && Owns(s1, s.loop.nextId, |s.futures|) && !HasReturned(s1, s.loop.nextId)
  {
    OwnsFromSpawn(s);
    StepKeepsSound(s, Spawn(true));
  }

  /** Over every run: a task made by `task()` whose future nobody else resolves or binds. If its
      function has returned, it did so once, and the future holds that value, and so did every
      `await` on it; otherwise no value was returned, and an `await` on it can only have thrown. */
  lemma AwaitersGetTheReturn(w: World, before: seq<Act>, after: seq<Act>)
    requires Initial(w) && AllowedRun(w, before) && Allowed(Run(w, before), Spawn(true))
    requires AllowedRun(Step(Run(w, before), Spawn(true)), after)
    requires var s := Run(w, before);
      Untouched(Step(s, Spawn(true)), after, s.loop.nextId, |s.futures|)
    ensures var s := Run(w, before);
      var t, f, s1 := s.loop.nextId, |s.futures|, Step(s, Spawn(true));
      var u := Run(s1, after);
      && f < |u.futures|
      && (if t in u.hist.ended && u.hist.ended[t] == Finished then
            && u.futures[f].completed && !u.futures[f].cancelled
            && Returns(s1, after, t) == [u.futures[f].value]
            && (forall r :: r in u.hist.awaits && r.future == f ==> r.outcome == Returned(u.futures[f].value))
          else
            && !u.futures[f].completed && Returns(s1, after, t) == []
            && (forall r :: r in u.hist.awaits && r.future == f ==> r.outcome == ThrewCancelled))
  {
    var s := Run(w, before);
    var t, f, s1 := s.loop.nextId, |s.futures|, Step(s, Spawn(true));
    ReachableSound(w, before);
    SpawnedOwns(s);
    RunReturns(s1, after, t, f);
    RunKeepsOwns(s1, after, t, f);
    RunKeepsInv(s1, after);
    OwnedAnswers(Run(s1, after), t, f);
  }

  // ------------------------------------------------------- run<T>(task)

  /** What `get` answers about a task's future once the task has been deleted. */
  predicate Tells(w: World, t: TaskId, f: FutureId) {
    t in w.hist.ended && f < |w.futures| &&
    if w.hist.ended[t] == Finished
    then w.futures[f].completed && !w.futures[f].cancelled else w.futures[f].cancelled
  }

  lemma OnlyTaskLeft(w: World, t: TaskId)
    requires OrderInv(w) && EndInv(w) && |All(w)| == 1 && All(w)[0].status == Done && Spawned(w, t)
    ensures t in w.hist.ended && (t in w.hist.deleted || All(w)[0].id == t)
  {
    if t !in w.hist.ended {
      var i := NotEndedIsListed(w, t);
    }
    var range := Range(w.hist.base, w.loop.nextId - w.hist.base);
    assert range[t - w.hist.base] == t;
    assert t in multiset(range);
    if t !in w.hist.deleted {
      assert t in multiset(Ids(All(w)));
      assert Ids(All(w)) == [All(w)[0].id];
    }
  }

  lemma LastCleanUpTells(w: World, t: TaskId, f: FutureId)
    requires OrderInv(w) && EndInv(w) && Selecting(w) && Owns(w, t, f) && w.loop.mainId == w.hist.base
    requires Self(w).status == Done && !CleanUp(w).loop.running
    ensures Tells(CleanUp(w), t, f) && CleanUp(w).hist.ended == w.hist.ended
    ensures w.futures[f].completed ==> CleanUp(w).futures[f] == w.futures[f]
  {
    NothingPending(w);
    CleanUpErases(w);
    CleanUpKeeps(w);
    CleanUpAt(w, f);
    assert w.loop.tasks == [Self(w)];
    OnlyTaskLeft(w, t);
  }

  lemma DrainOwns(w: World, t: TaskId, f: FutureId)
    requires Inv(w) && EndInv(w) && Owns(w, t, f) && w.phase.Idle? && w.loop.running
    ensures WakesOnlyWaiting(w)
    ensures var d := Drain(w);
      && OrderInv(d) && EndInv(d) && Selecting(d) && Owns(d, t, f)
      && d.hist == w.hist && d.futures == w.futures && d.loop.mainId == w.loop.mainId
  {
    EndDrain(w);
    DrainKeepsNames(w);
    RefersSame(w, Drain(w), t, f);
  }

  lemma StopsByCleanUp(w: World)
    requires Selecting(w) && !Dispatch(w).loop.running
    ensures Self(w).status == Done && Dispatch(w) == CleanUp(w)
  {}

  /** The cycle that stops the loop, also one that cancels `f` again. */
  lemma LastCycleTells(w: World, t: TaskId, f: FutureId)
    requires Sound(w) && Owns(w, t, f) && w.phase.Idle? && w.loop.running && !DoCycle(w).loop.running
    ensures Tells(DoCycle(w), t, f) && DoCycle(w).hist.ended == w.hist.ended
    ensures w.futures[f].completed ==> DoCycle(w).futures[f] == w.futures[f]
  {
    DrainOwns(w, t, f);
    StopsByCleanUp(Drain(w));
    LastCleanUpTells(Drain(w), t, f);
  }

  /** `run<T>(task)`: main makes the task and is bound to its future, and anything may happen until
      the cycle that stops the loop. `get` then returns the value that the task's function returned,
      if it did, and otherwise throws `CancelledException`. */
  lemma RunGivesTheResult(w: World, before: seq<Act>, after: seq<Act>)
    requires Initial(w) && AllowedRun(w, before) && Allowed(Run(w, before), Spawn(true))
    requires AllowedRun(Step(Run(w, before), Spawn(true)), after)
    requires var s := Run(w, before);
      Untouched(Step(s, Spawn(true)), after, s.loop.nextId, |s.futures|)
    ensures var s := Run(w, before);
      var t, f, s1 := s.loop.nextId, |s.futures|, Step(s, Spawn(true));
      var u := Run(s1, after);
      u.phase.Idle? && u.loop.running && !DoCycle(u).loop.running ==>
        && t in u.hist.ended && f < |DoCycle(u).futures|
        && var returned, get := Returns(s1, after, t), GetOutcome(DoCycle(u).futures[f]);
        if u.hist.ended[t] == Finished then |returned| == 1 && get == Returned(returned[0])
        else returned == [] && get == ThrewCancelled
  {
    var s := Run(w, before);
    var t, f, s1 := s.loop.nextId, |s.futures|, Step(s, Spawn(true));
    var u := Run(s1, after);
    ReachableSound(w, before);
    SpawnedOwns(s);
    RunReturns(s1, after, t, f);
    RunKeepsOwns(s1, after, t, f);
    RunKeepsSound(s1, after);
    if u.phase.Idle? && u.loop.running && !DoCycle(u).loop.running {
      LastCycleTells(u, t, f);
      OwnedAnswers(u, t, f);
    }
  }
}
