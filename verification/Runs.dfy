/** The guarantees of the runtime in every reachable world: whatever the tasks do, in
    whatever order, with any number of foreign threads notifying events in between. */
module Runs {
  import opened LoopModel
  import opened FutureModel
  import opened Machine
  import opened Order
  import opened WakeTokens
  import opened Futures

  ghost predicate Inv(w: World) {
    OrderInv(w) && TokenInv(w) && FutureInv(w)
  }

  lemma StepKeepsInv(w: World, a: Act)
    requires Inv(w) && Allowed(w, a)
    ensures Inv(Step(w, a))
  {
    if a.Cycle? { TokensNameWaiting(w); }
    OrderStep(w, a);
    TokensStep(w, a);
    FuturesStep(w, a);
  }

  lemma {:induction false} RunKeepsInv(w: World, acts: seq<Act>)
    requires Inv(w) && AllowedRun(w, acts)
    ensures Inv(Run(w, acts))
    decreases |acts|
  {
    if acts != [] {
      StepKeepsInv(w, acts[0]);
      RunKeepsInv(Step(w, acts[0]), acts[1..]);
    }
  }

  lemma FirstOf<T>(a: seq<T>, b: seq<T>)
    requires a != []
    ensures a == [a[0]] + a[1..] && a + b == [a[0]] + (a[1..] + b)
  {}

  lemma RunCons(w: World, a: Act, rest: seq<Act>)
    requires Allowed(w, a) && AllowedRun(Step(w, a), rest)
    ensures AllowedRun(w, [a] + rest) && Run(w, [a] + rest) == Run(Step(w, a), rest)
  {
    assert ([a] + rest)[1..] == rest;
  }

  lemma {:induction false} RunConcat(w: World, a: seq<Act>, b: seq<Act>)
    requires AllowedRun(w, a) && AllowedRun(Run(w, a), b)
    ensures AllowedRun(w, a + b) && Run(w, a + b) == Run(Run(w, a), b)
    decreases |a|
  {
    if a == [] {
      assert a + b == b;
    } else {
      FirstOf(a, b);
      RunCons(w, a[0], a[1..]);
      RunConcat(Step(w, a[0]), a[1..], b);
      RunCons(w, a[0], a[1..] + b);
    }
  }

  lemma RunOne(w: World, a: Act)
    requires Allowed(w, a)
    ensures AllowedRun(w, [a]) && Run(w, [a]) == Step(w, a)
  {
    assert AllowedRun(Step(w, a), []);
  }

  lemma Reachable(w: World, acts: seq<Act>)
    requires Initial(w) && AllowedRun(w, acts)
    ensures Inv(Run(w, acts))
  {
    OrderInitially(w);
    TokensInitially(w);
    FuturesInitially(w);
    RunKeepsInv(w, acts);
  }

  // ------------------------------------------------------- wake tokens

  /** Each blocked task has exactly one wake token, no other task has any, no null task is
      ever woken, and between cycles only WAIT tasks are in the wake list. */
  lemma WakeTokensConserved(w: World, acts: seq<Act>, t: TaskId)
    requires Initial(w) && AllowedRun(w, acts)
    ensures Tokens(Run(w, acts), t) == if Blocked(Run(w, acts), t) then 1 else 0
    ensures !Run(w, acts).phase.Crashed?
    ensures Run(w, acts).phase.Idle? ==> WakesOnlyWaiting(Run(w, acts))
  {
    Reachable(w, acts);
    var u := Run(w, acts);
    assert TokenAt(u, t);
    if u.phase.Idle? { TokensNameWaiting(u); }
  }

  /** A notification of `t` is under way: in a notifying thread's hands, or in the wake list. */
  ghost predicate InFlight(w: World, t: TaskId) {
    t in w.loop.toWake || exists k :: 0 <= k < |w.hands| && t in w.hands[k].ids
  }

  /** Taking an id out of an event puts it under way, whether its task is blocked already
      or has only saved itself in the list. */
  lemma NotifyingPutsUnderWay(w: World, a: Act, t: TaskId)
    requires Allowed(w, a) && (a.NotifyOne? || a.NotifyAll? || a.Take?)
    requires t in w.events[a.e] && t !in Step(w, a).events[a.e]
    ensures InFlight(Step(w, a), t)
  {
    if a.Take? {
      assert t in Notifying(w.events[a.e], a.all).woken;
      assert Step(w, a).hands[a.thread].ids == Notifying(w.events[a.e], a.all).woken;
    } else if a.NotifyOne? {
      assert w.events[a.e] == [w.events[a.e][0]] + w.events[a.e][1..];
    }
  }

  ghost predicate WokenBy(w: World, a: Act, t: TaskId) {
    a.Cycle? && t in w.loop.toWake
  }

  lemma HandStays(w: World, a: Act, k: nat, t: TaskId)
    requires Allowed(w, a) && k < |w.hands| && t in w.hands[k].ids
    ensures |Step(w, a).hands| == |w.hands|
    ensures t in Step(w, a).hands[k].ids || t in Step(w, a).loop.toWake
  {
    if a.Deliver? && a.thread == k {
      var ids := w.hands[k].ids;
      assert ids == [ids[0]] + ids[1..];
    } else {
      assert Step(w, a).hands[k] == w.hands[k];
    }
  }

  /** What is under way stays under way through every step except the drain that wakes the task. */
  lemma InFlightStays(w: World, a: Act, t: TaskId)
    requires Inv(w) && Allowed(w, a) && InFlight(w, t) && !WokenBy(w, a, t)
    ensures InFlight(Step(w, a), t)
  {
    if t in w.loop.toWake {
      assert t in Step(w, a).loop.toWake;
    } else {
      var k :| 0 <= k < |w.hands| && t in w.hands[k].ids;
      HandStays(w, a, k, t);
    }
  }

  /** The drain that takes an id out of the wake list turns its task, and only the tasks
      named there, from WAIT to EXEC. */
  lemma DrainWakes(w: World, i: nat)
    requires Inv(w) && Allowed(w, Cycle) && i < |w.loop.tasks|
    ensures WakesOnlyWaiting(w)
    ensures Drain(w).loop.tasks[i].id == w.loop.tasks[i].id
    ensures w.loop.tasks[i].id in w.loop.toWake ==>
      w.loop.tasks[i].status == Wait && Drain(w).loop.tasks[i].status == Exec
    ensures w.loop.tasks[i].id !in w.loop.toWake ==> Drain(w).loop.tasks[i].status == w.loop.tasks[i].status
  {
    TokensNameWaiting(w);
    OrderDrain(w);
    AllAt(w);
  }

  /** No step but a drain ends a wait: a task is never woken in the middle of a slice. */
  lemma OnlyTheDrainWakes(w: World, a: Act, i: nat)
    requires Inv(w) && Allowed(w, a) && !a.Cycle? && i < |w.loop.tasks| && w.loop.tasks[i].status == Wait
    ensures i < |Step(w, a).loop.tasks| && Step(w, a).loop.tasks[i].status == Wait
    ensures Step(w, a).loop.tasks[i].id == w.loop.tasks[i].id
  {
    if GivesBack(a) { GivingBackLeaves(w, a); }
  }

  lemma InFlightIsBlocked(w: World, t: TaskId)
    requires Inv(w) && InFlight(w, t)
    ensures Blocked(w, t)
  {
    assert TokenAt(w, t);
    if t in w.loop.toWake {
      CountMember(w.loop.toWake, t);
    } else {
      var k :| 0 <= k < |w.hands| && t in w.hands[k].ids;
      CountMember(w.hands[k].ids, t);
      TotalAtLeast(w.hands, InHand, k, t);
    }
  }

  lemma TakeNext<T>(s: seq<T>, j: nat)
    requires j < |s|
    ensures s[..j + 1][0] == s[0] && s[..j + 1][1..] == s[1..][..j]
  {}

  lemma RunPrefix(w: World, acts: seq<Act>, j: nat)
    requires j < |acts| && Allowed(w, acts[0]) && AllowedRun(Step(w, acts[0]), acts[1..][..j])
    ensures AllowedRun(w, acts[..j + 1]) && Run(w, acts[..j + 1]) == Run(Step(w, acts[0]), acts[1..][..j])
    ensures j + 1 < |acts| ==> acts[j + 1] == acts[1..][j]
  {
    TakeNext(acts, j);
  }

  /** Over any run: a notification under way is still under way at the end, with its task
      still blocked, unless the drain of some cycle in between woke the task. */
  lemma {:induction false} NoWakeUpIsLost(w: World, acts: seq<Act>, t: TaskId) returns (k: nat)
    requires Inv(w) && AllowedRun(w, acts) && InFlight(w, t)
    ensures k <= |acts| && AllowedRun(w, acts[..k])
    ensures k < |acts| ==> WokenBy(Run(w, acts[..k]), acts[k], t)
    ensures k == |acts| ==> InFlight(Run(w, acts), t) && Blocked(Run(w, acts), t)
    decreases |acts|
  {
    if acts == [] {
      k := 0;
      InFlightIsBlocked(w, t);
    } else if WokenBy(w, acts[0], t) {
      k := 0;
      assert acts[..0] == [];
    } else {
      StepKeepsInv(w, acts[0]);
      InFlightStays(w, acts[0], t);
      var j := NoWakeUpIsLost(Step(w, acts[0]), acts[1..], t);
      k := j + 1;
      RunPrefix(w, acts, j);
    }
  }

  // ------------------------------------------------------- order and cursor

  lemma CleanUpKeepsBase(w: World)
    requires w.loop.current < |w.loop.tasks|
    ensures CleanUp(w).hist.base == w.hist.base && CleanUp(w).keepGoing == w.keepGoing
    ensures CleanUp(w).loop.mainId == w.loop.mainId
  {}

  lemma DispatchKeepsBase(w: World)
    ensures Dispatch(w).hist.base == w.hist.base && Dispatch(w).keepGoing == w.keepGoing
    ensures Dispatch(w).loop.mainId == w.loop.mainId
  {
    if w.loop.current < |w.loop.tasks| && Self(w).status == Done { CleanUpKeepsBase(w); }
  }

  lemma CycleKeepsBase(w: World)
    ensures DoCycle(w).hist.base == w.hist.base && DoCycle(w).keepGoing == w.keepGoing
    ensures DoCycle(w).loop.mainId == w.loop.mainId
  {
    if AllListed(w.loop.tasks, w.loop.toWake) { DispatchKeepsBase(Drain(w)); }
  }

  lemma StepKeepsBase(w: World, a: Act)
    requires Allowed(w, a)
    ensures Step(w, a).hist.base == w.hist.base && Step(w, a).keepGoing == w.keepGoing
    ensures Step(w, a).loop.mainId == w.loop.mainId
  {
    if a.Cycle? { CycleKeepsBase(w); }
  }

  lemma {:induction false} BaseIsFixed(w: World, acts: seq<Act>)
    requires AllowedRun(w, acts)
    ensures Run(w, acts).hist.base == w.hist.base && Run(w, acts).keepGoing == w.keepGoing
    ensures Run(w, acts).loop.mainId == w.loop.mainId
    decreases |acts|
  {
    if acts != [] {
      StepKeepsBase(w, acts[0]);
      BaseIsFixed(Step(w, acts[0]), acts[1..]);
    }
  }

  /** Tasks are started in the order they were spawned, without a gap, and the tasks still
      to be started are the end of the list, at or after the cursor. */
  lemma TasksStartInSpawnOrder(w: World, acts: seq<Act>)
    requires Initial(w) && AllowedRun(w, acts)
    ensures var u := Run(w, acts);
      && u.hist.base == w.hist.base
      && u.hist.started == Range(w.hist.base, |u.hist.started|)
      && |u.hist.started| <= u.loop.nextId - w.hist.base
      && (forall i, j :: 0 <= i < j < |All(u)| ==> All(u)[i].id < All(u)[j].id)
      && (forall i, j :: 0 <= i < j < |All(u)| && All(u)[i].status == Init ==> All(u)[j].status == Init)
      && (forall i :: 0 <= i < |All(u)| && All(u)[i].status == Init ==> u.loop.current <= i)
  {
    Reachable(w, acts);
    IdsIncrease(Run(w, acts));
    BaseIsFixed(w, acts);
  }

  /** At each cycle of a running loop the cursor is within the list, some task is listed or
      pending, and the index used to pick a task exists. */
  lemma CursorInRange(w: World, acts: seq<Act>)
    requires Initial(w) && AllowedRun(w, acts) && Run(w, acts).phase.Idle? && Run(w, acts).loop.running
    ensures var u := Run(w, acts);
      && u.loop.current <= |u.loop.tasks|
      && u.loop.tasks + u.loop.toStart != []
      && AllListed(u.loop.tasks, u.loop.toWake)
      && Drained(u.loop).current < |Drained(u.loop).tasks|
  {
    Reachable(w, acts);
    var u := Run(w, acts);
    TokensNameWaiting(u);
    OrderDrain(u);
  }

  /** During a slice `getCurrentTask()` exists, is executing, and stays the same task. */
  lemma CursorNamesTheExecutingTask(w: World, a: Act)
    requires Inv(w) && (w.phase.Busy? || w.phase.Saved?)
    ensures w.loop.current < |w.loop.tasks| && Self(w).status == Exec
    ensures Allowed(w, a) && (Step(w, a).phase.Busy? || Step(w, a).phase.Saved?) ==>
      Step(w, a).loop.current < |Step(w, a).loop.tasks| && Self(Step(w, a)).id == Self(w).id
  {
    if Allowed(w, a) && GivesBack(a) {
      GivingBackLeaves(w, a);
    } else if Allowed(w, a) && !a.Spawn? {
      OthersAreQuiet(w, a);
    }
  }

  // ------------------------------------------------------- stopping

  lemma CountsNothing(ids: seq<TaskId>)
    requires forall t :: Count(ids, t) == 0
    ensures ids == []
  {
    forall t ensures multiset(ids)[t] == 0 {
      assert Count(ids, t) == 0;
    }
    assert multiset(ids) == multiset{};
  }

  lemma NothingBlockedNothingWaits(u: World)
    requires TokenInv(u) && u.loop.tasks == []
    ensures u.loop.toWake == [] && u.raw == []
    ensures forall k :: 0 <= k < |u.hands| ==> u.hands[k].ids == []
    ensures forall e :: 0 <= e < |u.events| ==> u.events[e] == []
    ensures forall f :: 0 <= f < |u.futures| && u.futures[f].waiters != [] ==> u.futures[f].Resolved()
  {
    forall t ensures Count(u.loop.toWake, t) == 0 && Count(u.raw, t) == 0 {
      assert TokenAt(u, t);
    }
    CountsNothing(u.loop.toWake);
    CountsNothing(u.raw);
    forall k | 0 <= k < |u.hands| ensures u.hands[k].ids == [] {
      if u.hands[k].ids != [] {
        var t := u.hands[k].ids[0];
        assert TokenAt(u, t);
        TotalAtLeast(u.hands, InHand, k, t);
        CountMember(u.hands[k].ids, t);
      }
    }
    forall e | 0 <= e < |u.events| ensures u.events[e] == [] {
      if u.events[e] != [] {
        var t := u.events[e][0];
        assert TokenAt(u, t);
        TotalAtLeast(u.events, InList, e, t);
        CountMember(u.events[e], t);
      }
    }
    forall f | 0 <= f < |u.futures| && u.futures[f].waiters != [] ensures u.futures[f].Resolved() {
      var t := u.futures[f].waiters[0];
      assert TokenAt(u, t);
      TotalAtLeast(u.futures, InFuture, f, t);
      CountMember(u.futures[f].waiters, t);
    }
  }

  lemma StoppedIsQuiet(u: World)
    requires Inv(u) && !u.loop.running
    ensures u.loop.tasks == [] && u.loop.toStart == [] && u.loop.toWake == [] && u.raw == []
    ensures forall k :: 0 <= k < |u.hands| ==> u.hands[k].ids == []
    ensures forall e :: 0 <= e < |u.events| ==> u.events[e] == []
    ensures forall f :: 0 <= f < |u.futures| && u.futures[f].waiters != [] ==> u.futures[f].Resolved()
    ensures u.hist.base <= u.loop.nextId
    ensures multiset(u.hist.deleted) == multiset(Range(u.hist.base, u.loop.nextId - u.hist.base))
  {
    assert All(u) == [];
    NothingBlockedNothingWaits(u);
    assert Ids(All(u)) == [];
  }

  /** When the loop stops, nothing is left anywhere, and every task ever spawned has been
      deleted exactly once. */
  lemma StopsQuiescent(w: World, acts: seq<Act>)
    requires Initial(w) && AllowedRun(w, acts) && !Run(w, acts).loop.running
    ensures var u := Run(w, acts);
      && u.loop.tasks == [] && u.loop.toStart == [] && u.loop.toWake == [] && u.raw == []
      && (forall k :: 0 <= k < |u.hands| ==> u.hands[k].ids == [])
      && (forall e :: 0 <= e < |u.events| ==> u.events[e] == [])
      && (forall f :: 0 <= f < |u.futures| && u.futures[f].waiters != [] ==> u.futures[f].Resolved())
      && w.hist.base <= u.loop.nextId
      && multiset(u.hist.deleted) == multiset(Range(w.hist.base, u.loop.nextId - w.hist.base))
  {
    Reachable(w, acts);
    BaseIsFixed(w, acts);
    StoppedIsQuiet(Run(w, acts));
  }

  // ------------------------------------------------------- awaiting

  /** `await` returned `v` only if the future was completed, once, with `v`, and never
      cancelled; it threw `CancelledException` only if the future was cancelled and never
      completed; it never threw `FutureFailedToCompleteException`. */
  lemma AwaitIsSound(w: World, acts: seq<Act>, r: AwaitRecord)
    requires Initial(w) && AllowedRun(w, acts) && r in Run(w, acts).hist.awaits
    ensures var u := Run(w, acts);
      match r.outcome
      case Returned(v) => Values(u.hist.completions, r.future) == [v] && r.future !in u.hist.cancels
      case ThrewCancelled => Values(u.hist.completions, r.future) == [] && r.future in u.hist.cancels
      case _ => false
  {
    Reachable(w, acts);
    var u := Run(w, acts);
    var k :| 0 <= k < |u.hist.awaits| && u.hist.awaits[k] == r;
    assert RecordOk(u, r);
    assert FlagsOk(u, r.future);
  }

  /** All tasks that await a future get the same answer. */
  lemma AwaitersAgree(w: World, acts: seq<Act>, r: AwaitRecord, s: AwaitRecord)
    requires Initial(w) && AllowedRun(w, acts)
    requires r in Run(w, acts).hist.awaits && s in Run(w, acts).hist.awaits && r.future == s.future
    ensures r.outcome == s.outcome
  {
    AwaitIsSound(w, acts, r);
    AwaitIsSound(w, acts, s);
  }

  /** `t` got a value from `await` on `f`. */
  ghost predicate Got(u: World, t: TaskId, f: FutureId) {
    exists v :: AwaitRecord(t, f, Returned(v)) in u.hist.awaits
  }

  /** `gather` awaits its futures one after the other: once it has returned, all of them are
      completed and none is cancelled, in whatever order they finished. */
  lemma GatherIsSound(w: World, acts: seq<Act>, t: TaskId, fs: seq<FutureId>)
    requires Initial(w) && AllowedRun(w, acts)
    requires forall k :: 0 <= k < |fs| ==> Got(Run(w, acts), t, fs[k])
    ensures var u := Run(w, acts);
      forall k :: 0 <= k < |fs| ==> fs[k] < |u.futures| && u.futures[fs[k]].completed && !u.futures[fs[k]].cancelled
  {
    Reachable(w, acts);
    var u := Run(w, acts);
    forall k | 0 <= k < |fs|
      ensures fs[k] < |u.futures| && u.futures[fs[k]].completed && !u.futures[fs[k]].cancelled
    {
      assert Got(u, t, fs[k]);
      var v :| AwaitRecord(t, fs[k], Returned(v)) in u.hist.awaits;
      var j :| 0 <= j < |u.hist.awaits| && u.hist.awaits[j] == AwaitRecord(t, fs[k], Returned(v));
      assert RecordOk(u, u.hist.awaits[j]);
    }
  }

  /** A task suspended in `await` on a resolved future has been woken or is about to be. */
  lemma AwaitNeverMissesResolution(w: World, acts: seq<Act>, t: TaskId)
    requires Initial(w) && AllowedRun(w, acts)
    requires t in Run(w, acts).position
    ensures var u := Run(w, acts); var f := u.position[t];
      f < |u.futures| && (u.futures[f].Resolved() && Waits(u.loop.tasks, t) ==> t in u.loop.toWake)
  {
    Reachable(w, acts);
    assert PositionOk(Run(w, acts), t);
  }
}
