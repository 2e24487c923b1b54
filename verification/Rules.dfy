/** The rules a run has to keep, and that none of them is stricter than it must be: here a task
    may resolve a future again, await a cancelled one, and notify any id, and `cleanUpTask`
    may cancel again. Wake tokens survive a step if and only if it breaks none of the rules.
    Other threads only notify events here; what else they do is in ForeignThreads.dfy. */
module Rules {
  import opened Options
  import opened LoopModel
  import opened FutureModel
  import opened Machine
  import opened Order
  import opened WakeTokens
  import opened Futures

  // ------------------------------------------------------- steps the code itself lets through

  /** Of the steps of the machine, those the code itself lets through. */
  predicate Permitted(w: World, a: Act) {
    match a
    case Cycle => w.phase.Idle? && w.loop.running
    case Complete(f, v) => InSlice(w) && f < |w.futures|
    case Cancel(f) => InSlice(w) && f < |w.futures|
    case RawNotify(id) => InSlice(w)
    case AwaitBlock(f) => InSlice(w) && f < |w.futures| && !w.futures[f].completed
    case Return(v) => InSlice(w)
    case _ => Allowed(w, a)
  }

  function Move(w: World, a: Act): World
    requires Permitted(w, a)
  {
    match a
    case Cycle => DoCycle(w)
    case Complete(f, v) => CompleteFuture(w, f, v)
    case Cancel(f) => CancelFuture(w, f)
    case RawNotify(id) => DoRawNotify(w, id)
    case AwaitBlock(f) => DoAwaitBlock(w, f)
    case Return(v) => DoReturn(w, v)
    case _ => Step(w, a)
  }

  /** A permitted step that is allowed is the step of the machine. */
  lemma MoveIsStep(w: World, a: Act)
    requires Allowed(w, a)
    ensures Permitted(w, a) && Move(w, a) == Step(w, a)
  {}

  /** The event a step notifies, or a task joins. */
  function EventOf(a: Act): Option<EventId> {
    if a.NotifyOne? || a.NotifyAll? || a.SaveWaiter? || a.Take? then Some(a.e) else None
  }

  function FutureOf(a: Act): Option<FutureId> {
    if a.Complete? || a.Cancel? || a.Bind? || a.AwaitReady? || a.AwaitBlock? then Some(a.f) else None
  }

  /** The future or event is there, and no thread is notifying the event. */
  predicate Available(w: World, a: Act) {
    && (FutureOf(a).Some? ==> FutureOf(a).value < |w.futures|)
    && (EventOf(a).Some? ==> EventOf(a).value < |w.events|)
    && !exists k :: 0 <= k < |w.hands| && EventOf(a) == Some(w.hands[k].event) && w.hands[k].ids != []
  }

  /** Nothing else is ruled out: a running loop can always do a cycle, a task in its slice anything
      with what is there (`await` blocks exactly if its future is not completed), an idle thread can
      notify an event, and one that is not idle passes on what it has in hand. */
  lemma PermittedIff(w: World, a: Act)
    ensures Permitted(w, a) <==>
      if a.Cycle? then w.phase.Idle? && w.loop.running
      else if a.Take? then a.thread < |w.hands| && w.hands[a.thread].ids == [] && Available(w, a)
      else if a.Deliver? then a.thread < |w.hands| && w.hands[a.thread].ids != []
      else
        && (if a.Suspend? then w.phase.Saved? else w.phase.Busy?) && w.loop.current < |w.loop.tasks|
        && Available(w, a)
        && (a.AwaitReady? ==> w.futures[a.f].completed) && (a.AwaitBlock? ==> !w.futures[a.f].completed)
  {
    if EventOf(a).Some? && EventOf(a).value < |w.events| {
      assert Unlocked(w, EventOf(a).value) <==>
        !exists k :: 0 <= k < |w.hands| && EventOf(a) == Some(w.hands[k].event) && w.hands[k].ids != [];
    }
  }

  /** What `Allowed` asks of callers, and of `cleanUpTask`, beyond what the code lets through. */
  lemma AllowedIff(w: World, a: Act)
    ensures Allowed(w, a) <==>
      Permitted(w, a) &&
      match a
      case Cycle => CleansUpOnce(w)
      case Complete(f, _) => !w.futures[f].completed && !w.futures[f].cancelled
      case Cancel(f) => !w.futures[f].completed && !w.futures[f].cancelled
      case AwaitBlock(f) => !w.futures[f].cancelled
      case RawNotify(id) => id in w.raw
      case Return(_) => Self(w).id in w.wrapped ==> Unresolved(w, w.wrapped[Self(w).id])
      case _ => true
  {}

  // ------------------------------------------------------- the rules

  /** Resolving `f` once more would notify the tasks registered with it once more. */
  predicate ResolvesAgain(w: World, f: FutureId) {
    f < |w.futures| && w.futures[f].Resolved() && w.futures[f].waiters != []
  }

  /** The task the next cycle cleans up is bound to a future that was cancelled while tasks
      were registered with it. */
  predicate CancelsAgain(w: World) {
    AllListed(w.loop.tasks, w.loop.toWake) &&
    var l := Drained(w.loop);
    l.current < |l.tasks| && l.tasks[l.current].status == Done && l.tasks[l.current].result.Some? &&
    !(ChecksOrphans(l, l.tasks[l.current].id) && HasOrphans(l)) &&
    var f := l.tasks[l.current].result.value;
    ResolvesAgain(w, f) && !w.futures[f].completed
  }

  /** The step resolves a future again with tasks registered, awaits a cancelled future,
      or notifies a task that is not in a raw `wait()`. */
  predicate BreaksRule(w: World, a: Act)
    requires Permitted(w, a)
  {
    match a
    case Cycle => CancelsAgain(w)
    case Complete(f, v) => ResolvesAgain(w, f)
    case Cancel(f) => ResolvesAgain(w, f)
    case RawNotify(id) => id !in w.raw
    case AwaitBlock(f) => w.futures[f].cancelled
    case Return(v) => Self(w).id in w.wrapped && ResolvesAgain(w, w.wrapped[Self(w).id])
    case _ => false
  }

  // ------------------------------------------------------- tokens too many

  /** Ids in the wake list whose tasks are not blocked, or not blocked there. */
  lemma SurplusBreaks(w: World, u: World, ids: seq<TaskId>)
    requires TokenInv(w)
    requires forall t :: Tokens(u, t) == Tokens(w, t) + Count(ids, t) && Blocked(u, t) == Blocked(w, t)
    ensures TokenInv(u) <==> ids == []
  {
    forall t ensures TokenAt(u, t) <==> Count(ids, t) == 0 {
      assert TokenAt(w, t);
    }
    if ids != [] {
      CountMember(ids, ids[0]);
      assert !TokenAt(u, ids[0]);
    }
  }

  /** The ids notified a second time when `f` is resolved. */
  function Again(w: World, f: FutureId): seq<TaskId> {
    if f < |w.futures| && w.futures[f].Resolved() then w.futures[f].waiters else []
  }

  lemma ResolveAgainTokens(w: World, f: FutureId, x: Future<Value>, t: TaskId)
    requires f < |w.futures| && x.Resolved()
    ensures var u := Push(w, w.futures[f].waiters).(futures := w.futures[f := x]);
      Tokens(u, t) == Tokens(w, t) + Count(Again(w, f), t)
  {
    CountAppend(w.loop.toWake, w.futures[f].waiters, t);
    TotalUpdate(w.futures, InFuture, f, x, t);
  }

  lemma CompleteAgainTokens(w: World, f: FutureId, v: Value, t: TaskId)
    requires f < |w.futures|
    ensures Tokens(CompleteFuture(w, f, v), t) == Tokens(w, t) + Count(Again(w, f), t)
  {
    ResolveAgainTokens(w, f, AfterComplete(w.futures[f], v), t);
  }

  lemma CancelAgainTokens(w: World, f: FutureId, t: TaskId)
    requires f < |w.futures|
    ensures Tokens(CancelFuture(w, f), t) == Tokens(w, t) + Count(Again(w, f), t)
  {
    ResolveAgainTokens(w, f, AfterCancel(w.futures[f]), t);
  }

  lemma ResolvingKeepsTokens(w: World, u: World, f: FutureId)
    requires TokenInv(w) && InSlice(w) && f < |w.futures|
    requires u == CancelFuture(w, f) || exists v :: u == CompleteFuture(w, f, v)
    ensures TokenInv(u) <==> !ResolvesAgain(w, f)
  {
    forall t ensures Tokens(u, t) == Tokens(w, t) + Count(Again(w, f), t) && Blocked(u, t) == Blocked(w, t) {
      if u == CancelFuture(w, f) {
        CancelAgainTokens(w, f, t);
      } else {
        var v :| u == CompleteFuture(w, f, v);
        CompleteAgainTokens(w, f, v, t);
      }
      BlockedQuiet(w, u, t);
    }
    SurplusBreaks(w, u, Again(w, f));
  }

  lemma NotifyingAnyKeepsTokens(w: World, id: TaskId)
    requires TokenInv(w) && InSlice(w)
    ensures TokenInv(DoRawNotify(w, id)) <==> id in w.raw
  {
    var u := DoRawNotify(w, id);
    var surplus := if id in w.raw then [] else [id];
    forall t ensures Tokens(u, t) == Tokens(w, t) + Count(surplus, t) && Blocked(u, t) == Blocked(w, t) {
      CountAppend(w.loop.toWake, [id], t);
      CountWithout(w.raw, id, t);
      BlockedQuiet(w, u, t);
    }
    SurplusBreaks(w, u, surplus);
  }

  // ------------------------------------------------------- a worker that returns

  lemma ReturnAgainTokens(w: World, v: Value, f: FutureId, t: TaskId)
    requires InSlice(w) && Self(w).id in w.wrapped && w.wrapped[Self(w).id] == f && f < |w.futures|
    ensures Tokens(DoReturn(w, v), t) == Tokens(w, t) + Count(Again(w, f), t)
  {
    CompleteAgainTokens(w, f, v, t);
    assert SamePlaces(CompleteFuture(w, f, v), DoReturn(w, v));
  }

  /** Neither before nor after it ends is the executing task blocked. */
  lemma BlockedReturn(w: World, v: Value, t: TaskId)
    requires OrderInv(w) && InSlice(w)
    ensures Blocked(DoReturn(w, v), t) == Blocked(w, t)
  {
    IdsIncrease(w);
    assert DoReturn(w, v).loop.tasks == SetStatus(w.loop, Done).tasks;
    WaitsUpdate(w.loop.tasks, w.loop.current, Done, t);
    ExecutingIsNotBlocked(w);
  }

  lemma ReturningKeepsTokens(w: World, v: Value)
    requires TokenInv(w) && OrderInv(w) && InSlice(w)
    ensures TokenInv(DoReturn(w, v)) <==> !BreaksRule(w, Return(v))
  {
    var u := DoReturn(w, v);
    var wraps := Self(w).id in w.wrapped && w.wrapped[Self(w).id] < |w.futures|;
    var surplus := if wraps then Again(w, w.wrapped[Self(w).id]) else [];
    forall t ensures Tokens(u, t) == Tokens(w, t) + Count(surplus, t) && Blocked(u, t) == Blocked(w, t) {
      if wraps { ReturnAgainTokens(w, v, w.wrapped[Self(w).id], t); } else { assert SamePlaces(w, u); }
      BlockedReturn(w, v, t);
    }
    SurplusBreaks(w, u, surplus);
  }

  // ------------------------------------------------------- a token too few

  /** Whoever blocks on a cancelled future is blocked with no wake-up to come. */
  lemma AwaitingCancelledBreaks(w: World, f: FutureId)
    requires TokenInv(w) && OrderInv(w) && InSlice(w) && f < |w.futures| && w.futures[f].Resolved()
    ensures !TokenInv(DoAwaitBlock(w, f))
  {
    var u, me := DoAwaitBlock(w, f), Self(w).id;
    ExecutingIsNotBlocked(w);
    assert TokenAt(w, me);
    TotalUpdate(w.futures, InFuture, f, AfterSaveWaiter(w.futures[f], me), me);
    assert Tokens(u, me) == 0;
    assert u.loop.tasks[w.loop.current].id == me && u.loop.tasks[w.loop.current].status == Wait;
    assert !TokenAt(u, me);
  }

  // ------------------------------------------------------- cleaning up

  lemma CleanUpAgainTokens(w: World, t: TaskId)
    requires w.phase.Idle? && w.loop.current < |w.loop.tasks| && !CleanUp(w).phase.Orphaned?
    ensures Tokens(CleanUp(w), t) == Tokens(w, t) + if Cancels(w) then Count(Again(w, Self(w).result.value), t) else 0
  {
    if Cancels(w) {
      CancelAgainTokens(w, Self(w).result.value, t);
      assert SamePlaces(CancelFuture(w, Self(w).result.value), CleanUp(w));
    } else {
      assert SamePlaces(w, CleanUp(w));
    }
  }

  lemma CleaningUpKeepsTokens(w: World)
    requires TokenInv(w) && Selecting(w) && Self(w).status == Done && !CleanUp(w).phase.Orphaned?
    ensures TokenInv(CleanUp(w)) <==> !(Cancels(w) && ResolvesAgain(w, Self(w).result.value))
  {
    var surplus := if Cancels(w) then Again(w, Self(w).result.value) else [];
    forall t
      ensures Tokens(CleanUp(w), t) == Tokens(w, t) + Count(surplus, t) && Blocked(CleanUp(w), t) == Blocked(w, t)
    {
      CleanUpAgainTokens(w, t);
      BlockedCleanUp(w, t);
    }
    SurplusBreaks(w, CleanUp(w), surplus);
  }

  lemma OrphanedKeepsToken(w: World, t: TaskId)
    requires TokenAt(w, t) && Selecting(w) && Self(w).status == Done && CleanUp(w).phase.Orphaned?
    ensures TokenAt(CleanUp(w), t)
  {
    assert CleanUp(w) == w.(phase := Orphaned);
  }

  /** A cycle that starts, resumes or skips a task, or throws for orphans, moves no token. */
  lemma DispatchKeepsToken(w: World, t: TaskId)
    requires TokenAt(w, t) && OrderInv(w) && Selecting(w) && (Self(w).status == Done ==> CleanUp(w).phase.Orphaned?)
    ensures TokenAt(Dispatch(w), t)
  {
    if Self(w).status == Done { OrphanedKeepsToken(w, t); } else { TokensSelect(w, t); }
  }

  lemma DrainKeepsTokens(w: World)
    requires OrderInv(w) && TokenInv(w) && w.phase.Idle? && w.loop.running
    ensures WakesOnlyWaiting(w) && OrderInv(Drain(w)) && TokenInv(Drain(w)) && Selecting(Drain(w))
    ensures OrderInv(DoCycle(w)) && DoCycle(w) == Dispatch(Drain(w))
  {
    TokensNameWaiting(w);
    OrderCycle(w);
    OrderDrain(w);
    forall t ensures TokenAt(Drain(w), t) { TokensDrain(w, t); }
  }

  lemma CycleKeepsTokens(w: World)
    requires OrderInv(w) && TokenInv(w) && w.phase.Idle? && w.loop.running
    ensures OrderInv(DoCycle(w)) && (TokenInv(DoCycle(w)) <==> !CancelsAgain(w))
  {
    DrainKeepsTokens(w);
    var d := Drain(w);
    if Self(d).status == Done && !CleanUp(d).phase.Orphaned? {
      CleaningUpKeepsTokens(d);
    } else {
      forall t ensures TokenAt(Dispatch(d), t) {
        assert TokenAt(d, t);
        DispatchKeepsToken(d, t);
      }
      assert !CancelsAgain(w);
    }
  }

  // ------------------------------------------------------- every step, every run

  lemma MoveKeepsOrder(w: World, a: Act)
    requires OrderInv(w) && TokenInv(w) && Permitted(w, a)
    ensures OrderInv(Move(w, a))
  {
    if a.Cycle? {
      CycleKeepsTokens(w);
    } else if a.Complete? || a.Cancel? || a.RawNotify? {
      OrderQuiet(w, Move(w, a));
    } else if a.AwaitBlock? {
      OrderLeaves(w, Move(w, a), Wait);
    } else if a.Return? {
      OrderLeaves(w, Move(w, a), Done);
    } else {
      OrderStep(w, a);
    }
  }

  /** A step conserves the wake tokens if and only if it breaks no rule. */
  lemma MoveKeepsTokens(w: World, a: Act)
    requires OrderInv(w) && TokenInv(w) && Permitted(w, a)
    ensures TokenInv(Move(w, a)) <==> !BreaksRule(w, a)
  {
    if a.Cycle? {
      CycleKeepsTokens(w);
    } else if a.Complete? || a.Cancel? {
      ResolvingKeepsTokens(w, Move(w, a), a.f);
    } else if a.RawNotify? {
      NotifyingAnyKeepsTokens(w, a.id);
    } else if a.Return? {
      ReturningKeepsTokens(w, a.v);
    } else if a.AwaitBlock? && w.futures[a.f].cancelled {
      AwaitingCancelledBreaks(w, a.f);
    } else {
      TokensStep(w, a);
    }
  }

  predicate PermittedRun(w: World, acts: seq<Act>)
    decreases |acts|
  {
    acts == [] || (Permitted(w, acts[0]) && PermittedRun(Move(w, acts[0]), acts[1..]))
  }

  function Moves(w: World, acts: seq<Act>): World
    requires PermittedRun(w, acts)
    decreases |acts|
  {
    if acts == [] then w else Moves(Move(w, acts[0]), acts[1..])
  }

  predicate BreaksNoRule(w: World, acts: seq<Act>)
    requires PermittedRun(w, acts)
    decreases |acts|
  {
    acts == [] || (!BreaksRule(w, acts[0]) && BreaksNoRule(Move(w, acts[0]), acts[1..]))
  }

  /** At every point of the run each blocked task has one wake token, and no other task has any. */
  ghost predicate TokensThroughout(w: World, acts: seq<Act>)
    requires PermittedRun(w, acts)
    decreases |acts|
  {
    TokenInv(w) && (acts == [] || TokensThroughout(Move(w, acts[0]), acts[1..]))
  }

  lemma {:induction false} TokensSurviveFrom(w: World, acts: seq<Act>)
    requires OrderInv(w) && TokenInv(w) && PermittedRun(w, acts)
    ensures TokensThroughout(w, acts) <==> BreaksNoRule(w, acts)
    ensures BreaksNoRule(w, acts) ==> OrderInv(Moves(w, acts)) && TokenInv(Moves(w, acts))
    decreases |acts|
  {
    if acts != [] {
      MoveKeepsOrder(w, acts[0]);
      MoveKeepsTokens(w, acts[0]);
      if !BreaksRule(w, acts[0]) {
        TokensSurviveFrom(Move(w, acts[0]), acts[1..]);
      }
    }
  }

  /** Over every run of the machine's steps that the code lets through: wake tokens are conserved
      throughout if and only if no step breaks a rule. */
  lemma TokensConservedIffNoRuleBroken(w: World, acts: seq<Act>)
    requires Initial(w) && PermittedRun(w, acts)
    ensures TokensThroughout(w, acts) <==> BreaksNoRule(w, acts)
  {
    OrderInitially(w);
    TokensInitially(w);
    TokensSurviveFrom(w, acts);
  }
}
