/** Other threads resolve futures and notify tasks while the loop runs, as `to_thread` does.
    `complete` and `cancel` set the flag and notify the waiters in two steps, and `await` tests,
    registers and blocks in three. Everything else is as in Machine.dfy. */
module ForeignThreads {
  import opened Options
  import opened LoopModel
  import opened FutureModel
  import opened Machine
  import opened Order
  import opened WakeTokens
  import opened Futures
  import opened Rules

  /** How far the executing task is in an `await`. */
  datatype Stage = Away | Checked(f: FutureId) | Registered(f: FutureId)

  /** `pending`: the futures whose flag another thread has set, and whose waiters it has still
      to notify. */
  datatype Threads = Threads(w: World, stage: Stage, pending: set<FutureId>)

  datatype ThreadAct =
    | Base(a: Act)
    | Check(f: FutureId) | Register | Block             // `await`, by the executing task
    | Store(f: FutureId, v: Value) | StoreCancel(f: FutureId)
    | NotifyWaiters(f: FutureId)
    | NotifyTask(id: TaskId)                            // a raw `notify`

  predicate CanDo(s: Threads, a: ThreadAct) {
    match a
    case Base(b) => Allowed(s.w, b) && !b.AwaitBlock? && (s.stage.Away? || b.Take? || b.Deliver?)
    case Check(f) => s.stage.Away? && InSlice(s.w) && f < |s.w.futures| && !s.w.futures[f].completed
    case Register => s.stage.Checked? && InSlice(s.w) && s.stage.f < |s.w.futures|
    case Block => s.stage.Registered? && InSlice(s.w)
    case Store(f, v) => Unresolved(s.w, f)
    case StoreCancel(f) => Unresolved(s.w, f)
    case NotifyWaiters(f) => f in s.pending && f < |s.w.futures|
    case NotifyTask(id) => id in s.w.raw
  }

  function SetFuture(w: World, f: FutureId, x: Future<Value>): World
    requires f < |w.futures|
  {
    w.(futures := w.futures[f := x])
  }

  function Do(s: Threads, a: ThreadAct): Threads
    requires CanDo(s, a)
  {
    match a
    case Base(b) => s.(w := Step(s.w, b))
    case Check(f) => s.(stage := Checked(f))
    case Register =>
      var f := s.stage.f;
      s.(w := SetFuture(s.w, f, AfterSaveWaiter(s.w.futures[f], Self(s.w).id)), stage := Registered(f))
    case Block =>
      s.(w := SwitchOut(s.w, Wait).(position := s.w.position[Self(s.w).id := s.stage.f]), stage := Away)
    case Store(f, v) => s.(w := SetFuture(s.w, f, AfterComplete(s.w.futures[f], v)), pending := s.pending + {f})
    case StoreCancel(f) => s.(w := SetFuture(s.w, f, AfterCancel(s.w.futures[f])), pending := s.pending + {f})
    case NotifyWaiters(f) => s.(w := Push(s.w, s.w.futures[f].waiters), pending := s.pending - {f})
    case NotifyTask(id) => s.(w := DoRawNotify(s.w, id))
  }

  // ------------------------------------------------------- the same run with resolving in one step

  /** A future that is stored but not notified yet, as if it were not resolved. */
  function Held(x: Future<Value>, pending: bool): Future<Value> {
    if pending then x.(completed := false, cancelled := false) else x
  }

  /** The world in which futures are resolved only when their waiters are notified, and a task in
      a waiter list counts as one that is about to block. */
  function Shadow(s: Threads): World {
    s.w.(futures := seq(|s.w.futures|, f requires 0 <= f < |s.w.futures| => Held(s.w.futures[f], f in s.pending)),
         phase := if s.stage.Registered? then Saved else s.w.phase)
  }

  predicate StageOk(s: Threads) {
    && (!s.stage.Away? ==> InSlice(s.w) && s.stage.f < |s.w.futures|)
    && (forall f :: f in s.pending ==> f < |s.w.futures| && s.w.futures[f].Resolved())
  }

  /** Each blocked task has exactly one wake token, and no other task has any. */
  ghost predicate TokensOk(s: Threads) {
    TokenInv(Shadow(s))
  }

  ghost predicate ThreadInv(s: Threads) {
    StageOk(s) && OrderInv(Shadow(s)) && TokensOk(s)
  }

  /** All that order and tokens depend on. */
  ghost predicate Alike(u: World, v: World) {
    && SamePlaces(u, v) && u.loop == v.loop && u.phase == v.phase
    && u.hist.base == v.hist.base && u.hist.started == v.hist.started && u.hist.deleted == v.hist.deleted
  }

  lemma AlikeKeeps(u: World, v: World)
    requires Alike(u, v) && OrderInv(u) && TokenInv(u)
    ensures OrderInv(v) && TokenInv(v)
  {
    OrderQuiet(u, v);
    forall t ensures TokenAt(v, t) {
      assert TokenAt(u, t);
    }
  }

  lemma ShadowFuture(s: Threads, f: FutureId)
    requires f < |s.w.futures|
    ensures Shadow(s).futures[f] == Held(s.w.futures[f], f in s.pending) && |Shadow(s).futures| == |s.w.futures|
  {}

  // ------------------------------------------------------- steps of the machine

  /** Steps that leave the futures alone and do not look at them. */
  predicate SkipsFutures(a: Act) {
    !a.Cycle? && !a.Spawn? && !a.NewFuture? && !a.Complete? && !a.Cancel? && !a.Bind? && !a.AwaitReady?
    && !a.AwaitBlock? && !a.Return?
  }

  lemma SkipsAlike(s: Threads, a: Act)
    requires CanDo(s, Base(a)) && SkipsFutures(a)
    ensures Allowed(Shadow(s), a) && Alike(Step(Shadow(s), a), Shadow(Do(s, Base(a))))
  {}

  lemma BindAlike(s: Threads, f: FutureId)
    requires CanDo(s, Base(Bind(f)))
    ensures Allowed(Shadow(s), Bind(f)) && Alike(Step(Shadow(s), Bind(f)), Shadow(Do(s, Base(Bind(f)))))
  {}

  lemma NewAlike(s: Threads, a: Act)
    requires StageOk(s) && CanDo(s, Base(a)) && (a.Spawn? || a.NewFuture?)
    ensures Allowed(Shadow(s), a) && Alike(Step(Shadow(s), a), Shadow(Do(s, Base(a))))
  {
    assert |s.w.futures| !in s.pending;
    assert Step(Shadow(s), a).futures == Shadow(Do(s, Base(a))).futures;
  }

  /** Resolving a future by the loop's own thread. */
  lemma ResolveAlike(s: Threads, f: FutureId, x: Future<Value>)
    requires StageOk(s) && Unresolved(s.w, f) && x.waiters == s.w.futures[f].waiters && x.Resolved()
    ensures Unresolved(Shadow(s), f) && Shadow(s).futures[f] == s.w.futures[f]
    ensures Shadow(s).futures[f := x] == Shadow(s.(w := SetFuture(s.w, f, x))).futures
  {
    assert f !in s.pending;
    ShadowFuture(s, f);
  }

  lemma CompleteAlike(s: Threads, a: Act)
    requires StageOk(s) && CanDo(s, Base(a)) && (a.Complete? || a.Cancel?)
    ensures Allowed(Shadow(s), a) && Alike(Step(Shadow(s), a), Shadow(Do(s, Base(a))))
  {
    var x := if a.Complete? then AfterComplete(s.w.futures[a.f], a.v) else AfterCancel(s.w.futures[a.f]);
    ResolveAlike(s, a.f, x);
  }

  lemma ReturnAlike(s: Threads, v: Value)
    requires StageOk(s) && CanDo(s, Base(Return(v)))
    ensures Allowed(Shadow(s), Return(v)) && Alike(DoReturn(Shadow(s), v), Shadow(Do(s, Base(Return(v)))))
  {
    if Self(s.w).id in s.w.wrapped {
      var f := s.w.wrapped[Self(s.w).id];
      ResolveAlike(s, f, AfterComplete(s.w.futures[f], v));
    }
  }

  lemma BaseAlike(s: Threads, a: Act)
    requires StageOk(s) && CanDo(s, Base(a)) && !a.Cycle? && !a.AwaitReady?
    ensures Allowed(Shadow(s), a) && Alike(Step(Shadow(s), a), Shadow(Do(s, Base(a))))
  {
    if a.Spawn? || a.NewFuture? {
      NewAlike(s, a);
    } else if a.Complete? || a.Cancel? {
      CompleteAlike(s, a);
    } else if a.Return? {
      ReturnAlike(s, a.v);
    } else if a.Bind? {
      BindAlike(s, a.f);
    } else {
      SkipsAlike(s, a);
    }
  }

  lemma InSliceKeeps(s: Threads, a: Act)
    requires ThreadInv(s) && CanDo(s, Base(a)) && !a.Cycle?
    ensures OrderInv(Shadow(Do(s, Base(a)))) && TokensOk(Do(s, Base(a)))
  {
    if a.AwaitReady? {
      AlikeKeeps(Shadow(s), Shadow(Do(s, Base(a))));
    } else {
      BaseAlike(s, a);
      OrderStep(Shadow(s), a);
      TokensStep(Shadow(s), a);
      AlikeKeeps(Step(Shadow(s), a), Shadow(Do(s, Base(a))));
    }
  }

  // ------------------------------------------------------- cycles

  /** `cleanUpTask` tests the flag itself, not whether the waiters have been notified. */
  lemma CleanUpThere(s: Threads)
    requires StageOk(s) && s.stage.Away? && Selecting(s.w) && ResultNotCancelled(s.w) && !CleanUp(s.w).phase.Orphaned?
    ensures var v, n, r := Shadow(s), Shadow(s.(w := CleanUp(s.w))), Self(s.w).result;
      if Cancels(s.w) then Unresolved(v, r.value) && SamePlaces(CancelFuture(v, r.value), n) else SamePlaces(v, n)
  {
    if Cancels(s.w) {
      var f := Self(s.w).result.value;
      ResolveAlike(s, f, AfterCancel(s.w.futures[f]));
    }
  }

  lemma CleanUpTokensThere(s: Threads, t: TaskId)
    requires StageOk(s) && s.stage.Away? && Selecting(s.w) && ResultNotCancelled(s.w) && !CleanUp(s.w).phase.Orphaned?
    ensures Tokens(Shadow(s.(w := CleanUp(s.w))), t) == Tokens(Shadow(s), t)
  {
    CleanUpThere(s);
    if Cancels(s.w) { CancelTokens(Shadow(s), Self(s.w).result.value, t); }
  }

  lemma CleanUpTokenThere(s: Threads, t: TaskId)
    requires StageOk(s) && TokenAt(Shadow(s), t) && s.stage.Away? && Selecting(s.w) && Self(s.w).status == Done
    requires ResultNotCancelled(s.w) && !CleanUp(s.w).phase.Orphaned?
    ensures TokenAt(Shadow(s.(w := CleanUp(s.w))), t)
  {
    CleanUpErases(s.w);
    CleanUpTokensThere(s, t);
    WaitsErase(s.w.loop.tasks, s.w.loop.current, t);
  }

  lemma OrphanKeeps(w: World)
    requires OrderInv(w) && TokenInv(w) && w.phase.Idle?
    ensures OrderInv(w.(phase := Orphaned)) && TokenInv(w.(phase := Orphaned))
  {
    var u := w.(phase := Orphaned);
    assert All(u) == All(w);
    OrderSame(w, u);
    forall t ensures TokenAt(u, t) { assert TokenAt(w, t); }
  }

  lemma CleanUpKeeps(s: Threads)
    requires ThreadInv(s) && s.stage.Away? && Selecting(s.w) && Self(s.w).status == Done && ResultNotCancelled(s.w)
    ensures OrderInv(Shadow(s.(w := CleanUp(s.w)))) && TokensOk(s.(w := CleanUp(s.w)))
  {
    var n := s.(w := CleanUp(s.w));
    if n.w.phase.Orphaned? {
      assert Alike(Shadow(s).(phase := Orphaned), Shadow(n));
      OrphanKeeps(Shadow(s));
      AlikeKeeps(Shadow(s).(phase := Orphaned), Shadow(n));
    } else {
      CleanUpErases(s.w);
      OrderErased(Shadow(s), Shadow(n));
      forall t ensures TokenAt(Shadow(n), t) {
        assert TokenAt(Shadow(s), t);
        CleanUpTokenThere(s, t);
      }
    }
  }

  /** Starting, resuming and skipping do not touch futures. */
  lemma SelectAlike(s: Threads)
    requires s.stage.Away? && Selecting(s.w) && Self(s.w).status != Done
    ensures Alike(Dispatch(Shadow(s)), Shadow(s.(w := Dispatch(s.w))))
  {}

  lemma SelectKeeps(s: Threads)
    requires ThreadInv(s) && s.stage.Away? && Selecting(s.w) && Self(s.w).status != Done
    ensures OrderInv(Shadow(s.(w := Dispatch(s.w)))) && TokensOk(s.(w := Dispatch(s.w)))
  {
    var v := Shadow(s);
    match Self(v).status {
      case Init => OrderStart(v);
      case Exec => OrderResume(v);
      case Wait => OrderSkip(v);
    }
    forall t ensures TokenAt(Dispatch(v), t) {
      assert TokenAt(v, t);
      TokensSelect(v, t);
    }
    SelectAlike(s);
    AlikeKeeps(Dispatch(v), Shadow(s.(w := Dispatch(s.w))));
  }

  lemma CycleKeeps(s: Threads)
    requires ThreadInv(s) && CanDo(s, Base(Cycle))
    ensures OrderInv(Shadow(Do(s, Base(Cycle)))) && TokensOk(Do(s, Base(Cycle)))
  {
    DrainKeepsTokens(Shadow(s));
    var d := s.(w := Drain(s.w));
    assert Shadow(d) == Drain(Shadow(s));
    if Self(d.w).status == Done { CleanUpKeeps(d); } else { SelectKeeps(d); }
  }

  // ------------------------------------------------------- steps of other threads

  lemma StoreShadow(s: Threads, a: ThreadAct)
    requires StageOk(s) && CanDo(s, a) && (a.Store? || a.StoreCancel?)
    ensures Shadow(s).futures[a.f] == s.w.futures[a.f]
    ensures var x := Held(Do(s, a).w.futures[a.f], true);
      Shadow(Do(s, a)).futures == Shadow(s).futures[a.f := x] && !x.Resolved() && x.waiters == s.w.futures[a.f].waiters
  {
    assert a.f !in s.pending;
  }

  lemma StoreTokens(s: Threads, a: ThreadAct, t: TaskId)
    requires StageOk(s) && CanDo(s, a) && (a.Store? || a.StoreCancel?)
    ensures Tokens(Shadow(Do(s, a)), t) == Tokens(Shadow(s), t)
  {
    StoreShadow(s, a);
    TotalUpdate(Shadow(s).futures, InFuture, a.f, Held(Do(s, a).w.futures[a.f], true), t);
  }

  lemma NotifyWaitersTokens(s: Threads, f: FutureId, t: TaskId)
    requires StageOk(s) && CanDo(s, NotifyWaiters(f))
    ensures Tokens(Shadow(Do(s, NotifyWaiters(f))), t) == Tokens(Shadow(s), t)
  {
    var n, v := Do(s, NotifyWaiters(f)), Shadow(s);
    ShadowFuture(s, f);
    ResolveTokens(v, f, s.w.futures[f], t);
    assert Shadow(n).futures == v.futures[f := s.w.futures[f]];
  }

  /** Resolving and notifying by another thread. */
  lemma ForeignKeeps(s: Threads, a: ThreadAct)
    requires ThreadInv(s) && CanDo(s, a) && (a.Store? || a.StoreCancel? || a.NotifyWaiters? || a.NotifyTask?)
    ensures OrderInv(Shadow(Do(s, a))) && TokensOk(Do(s, a))
  {
    var n := Do(s, a);
    OrderQuiet(Shadow(s), Shadow(n));
    forall t ensures TokenAt(Shadow(n), t) {
      assert TokenAt(Shadow(s), t);
      BlockedQuiet(Shadow(s), Shadow(n), t);
      if a.NotifyWaiters? {
        NotifyWaitersTokens(s, a.f, t);
      } else if a.NotifyTask? {
        RawNotifyTokens(Shadow(s), a.id, t);
        assert SamePlaces(DoRawNotify(Shadow(s), a.id), Shadow(n));
      } else {
        StoreTokens(s, a, t);
      }
    }
  }

  // ------------------------------------------------------- await, in its three steps

  /** The waiters of `f` are still to be notified. */
  predicate Live(s: Threads, f: FutureId) {
    f < |s.w.futures| && (!s.w.futures[f].Resolved() || f in s.pending)
  }

  lemma RegisterTokens(s: Threads, t: TaskId)
    requires StageOk(s) && CanDo(s, Register)
    ensures var n := Do(s, Register);
      Tokens(Shadow(n), t) == Tokens(Shadow(s), t) + if Live(s, s.stage.f) && t == Self(s.w).id then 1 else 0
  {
    var n, f, me := Do(s, Register), s.stage.f, Self(s.w).id;
    ShadowFuture(s, f);
    CountAppend(s.w.futures[f].waiters, [me], t);
    TotalUpdate(Shadow(s).futures, InFuture, f, Held(n.w.futures[f], f in s.pending), t);
    assert Shadow(n).futures == Shadow(s).futures[f := Held(n.w.futures[f], f in s.pending)];
  }

  /** A task that registers with a future already notified blocks with no wake-up to come. */
  lemma RegisterKeeps(s: Threads)
    requires ThreadInv(s) && CanDo(s, Register)
    ensures OrderInv(Shadow(Do(s, Register))) && (TokensOk(Do(s, Register)) <==> Live(s, s.stage.f))
  {
    var v, u, me := Shadow(s), Shadow(Do(s, Register)), Self(s.w).id;
    assert v.phase == Busy && u.phase == Saved;
    OrderQuiet(v, u);
    ExecutingIsNotBlocked(v);
    forall t ensures TokenAt(u, t) <==> (t == me ==> Live(s, s.stage.f)) {
      assert TokenAt(v, t);
      RegisterTokens(s, t);
      assert Waits(u.loop.tasks, t) == Waits(v.loop.tasks, t);
    }
    assert TokenAt(u, me) <==> Live(s, s.stage.f);
  }

  lemma BlockKeeps(s: Threads)
    requires ThreadInv(s) && CanDo(s, Block)
    ensures OrderInv(Shadow(Do(s, Block))) && TokensOk(Do(s, Block))
  {
    OrderStep(Shadow(s), Suspend);
    TokensStep(Shadow(s), Suspend);
    assert Alike(Step(Shadow(s), Suspend), Shadow(Do(s, Block)));
    AlikeKeeps(Step(Shadow(s), Suspend), Shadow(Do(s, Block)));
  }

  // ------------------------------------------------------- every step, every run

  lemma StageStep(s: Threads, a: ThreadAct)
    requires StageOk(s) && CanDo(s, a) && !a.Base?
    ensures StageOk(Do(s, a))
  {}

  lemma CycleResolvedStays(w: World)
    requires w.phase.Idle?
    ensures |w.futures| <= |DoCycle(w).futures|
    ensures forall f :: 0 <= f < |w.futures| && w.futures[f].Resolved() ==> DoCycle(w).futures[f].Resolved()
  {
    if AllListed(w.loop.tasks, w.loop.toWake) {
      var d := Drain(w);
      if d.loop.current < |d.loop.tasks| {
        if Self(d).status == Done { CleanUpFlags(d); } else { FlagsSelect(d); }
      }
    }
  }

  lemma ResolvedStays(w: World, a: Act)
    requires Allowed(w, a)
    ensures |w.futures| <= |Step(w, a).futures|
    ensures forall f :: 0 <= f < |w.futures| && w.futures[f].Resolved() ==> Step(w, a).futures[f].Resolved()
  {
    if !Resolves(a) {
      OthersKeepFlags(w, a);
    } else if a.Cycle? {
      CycleResolvedStays(w);
    }
  }

  /** No step of the machine makes a future unresolved. */
  lemma StageBase(s: Threads, a: Act)
    requires StageOk(s) && CanDo(s, Base(a))
    ensures StageOk(Do(s, Base(a)))
  {
    ResolvedStays(s.w, a);
    if !s.stage.Away? {
      assert Step(s.w, a).loop.tasks == s.w.loop.tasks && Step(s.w, a).phase == s.w.phase;
    }
  }

  /** A step conserves the wake tokens unless a task registers too late. */
  lemma ThreadStep(s: Threads, a: ThreadAct)
    requires ThreadInv(s) && CanDo(s, a)
    ensures StageOk(Do(s, a)) && OrderInv(Shadow(Do(s, a)))
    ensures TokensOk(Do(s, a)) <==> (a.Register? ==> Live(s, s.stage.f))
  {
    match a {
      case Base(b) =>
        StageBase(s, b);
        if b.Cycle? { CycleKeeps(s); } else { InSliceKeeps(s, b); }
      case Check(f) => assert Shadow(Do(s, a)) == Shadow(s);
      case Register => RegisterKeeps(s);
      case Block => BlockKeeps(s);
      case _ => ForeignKeeps(s, a);
    }
    if !a.Base? { StageStep(s, a); }
  }

  predicate CanDoAll(s: Threads, acts: seq<ThreadAct>)
    decreases |acts|
  {
    acts == [] || (CanDo(s, acts[0]) && CanDoAll(Do(s, acts[0]), acts[1..]))
  }

  function DoAll(s: Threads, acts: seq<ThreadAct>): Threads
    requires CanDoAll(s, acts)
    decreases |acts|
  {
    if acts == [] then s else DoAll(Do(s, acts[0]), acts[1..])
  }

  ghost predicate TokensOkThroughout(s: Threads, acts: seq<ThreadAct>)
    requires CanDoAll(s, acts)
    decreases |acts|
  {
    TokensOk(s) && (acts == [] || TokensOkThroughout(Do(s, acts[0]), acts[1..]))
  }

  /** No task registers with a future whose waiters have been notified. */
  predicate NeverTooLate(s: Threads, acts: seq<ThreadAct>)
    requires CanDoAll(s, acts)
    decreases |acts|
  {
    acts == [] || ((acts[0].Register? ==> Live(s, s.stage.f)) && NeverTooLate(Do(s, acts[0]), acts[1..]))
  }

  lemma {:induction false} ThreadRun(s: Threads, acts: seq<ThreadAct>)
    requires ThreadInv(s) && CanDoAll(s, acts)
    ensures TokensOkThroughout(s, acts) <==> NeverTooLate(s, acts)
    decreases |acts|
  {
    if acts != [] {
      ThreadStep(s, acts[0]);
      if TokensOk(Do(s, acts[0])) {
        ThreadRun(Do(s, acts[0]), acts[1..]);
      }
    }
  }

  /** Over every run in which other threads resolve futures, notify events and notify tasks at any time:
      wake tokens are conserved throughout if and only if no task registers with a future
      after its waiters have been notified. */
  lemma TokensConservedIffNeverTooLate(w: World, acts: seq<ThreadAct>)
    requires Initial(w) && CanDoAll(Threads(w, Away, {}), acts)
    ensures TokensOkThroughout(Threads(w, Away, {}), acts) <==> NeverTooLate(Threads(w, Away, {}), acts)
  {
    OrderInitially(w);
    TokensInitially(w);
    assert Shadow(Threads(w, Away, {})) == w;
    ThreadRun(Threads(w, Away, {}), acts);
  }

  lemma WindowStep(s: Threads, f: FutureId, a: ThreadAct)
    requires StageOk(s) && s.stage == Checked(f) && f < |s.w.futures| && CanDo(s, a) && !a.Register?
    ensures StageOk(Do(s, a)) && Do(s, a).stage == Checked(f) && f < |Do(s, a).w.futures|
    ensures Live(s, f) ==> (Live(Do(s, a), f) <==> a != NotifyWaiters(f))
    ensures !Live(s, f) ==> !Live(Do(s, a), f)
  {
    if a.Base? { StageBase(s, a.a); } else { StageStep(s, a); }
  }

  lemma {:induction false} StaysNotified(s: Threads, f: FutureId, acts: seq<ThreadAct>)
    requires StageOk(s) && s.stage == Checked(f) && f < |s.w.futures| && !Live(s, f)
    requires CanDoAll(s, acts) && Register !in acts
    ensures DoAll(s, acts).stage == Checked(f) && !Live(DoAll(s, acts), f)
    decreases |acts|
  {
    if acts != [] {
      assert acts == [acts[0]] + acts[1..];
      WindowStep(s, f, acts[0]);
      StaysNotified(Do(s, acts[0]), f, acts[1..]);
    }
  }

  /** From the check of a future to the registration only other threads do anything. A task whose check
      came in time is too late to register if and only if the waiters were notified in between. */
  lemma {:induction false} TooLateIffNotifiedBetween(s: Threads, f: FutureId, between: seq<ThreadAct>)
    requires StageOk(s) && s.stage == Checked(f) && Live(s, f)
    requires CanDoAll(s, between) && Register !in between
    ensures var n := DoAll(s, between);
      n.stage == Checked(f) && (Live(n, f) <==> NotifyWaiters(f) !in between)
    decreases |between|
  {
    if between != [] {
      WindowStep(s, f, between[0]);
      assert between == [between[0]] + between[1..];
      if between[0] == NotifyWaiters(f) {
        StaysNotified(Do(s, between[0]), f, between[1..]);
      } else {
        TooLateIffNotifiedBetween(Do(s, between[0]), f, between[1..]);
      }
    }
  }

  // ------------------------------------------------------- what threads store

  /** `f` was completed with `v`, or cancelled if that is `None`. */
  predicate Stored(w: World, f: FutureId, v: Option<Value>) {
    f < |w.futures| &&
    if v.Some? then w.futures[f].completed && !w.futures[f].cancelled && w.futures[f].value == v.value
    else w.futures[f].cancelled && !w.futures[f].completed
  }

  lemma StoredSame(w: World, u: World, f: FutureId, v: Option<Value>)
    requires Stored(w, f, v) && SameFlags(w, u)
    ensures Stored(u, f, v)
  {}

  lemma CancelStored(w: World, g: FutureId, f: FutureId, v: Option<Value>)
    requires Stored(w, f, v) && g < |w.futures| && !w.futures[g].completed
    ensures Stored(CancelFuture(w, g), f, v)
  {}

  lemma CycleKeepsStored(w: World, f: FutureId, v: Option<Value>)
    requires Allowed(w, Cycle) && Stored(w, f, v)
    ensures Stored(DoCycle(w), f, v)
  {
    if AllListed(w.loop.tasks, w.loop.toWake) {
      var d := Drain(w);
      if d.loop.current < |d.loop.tasks| {
        if Self(d).status == Done {
          CleanUpFlags(d);
          if Cancels(d) && !CleanUp(d).phase.Orphaned? {
            CancelStored(d, Self(d).result.value, f, v);
            StoredSame(CancelFuture(d, Self(d).result.value), CleanUp(d), f, v);
          } else {
            StoredSame(d, CleanUp(d), f, v);
          }
        } else {
          FlagsSelect(d);
          StoredSame(d, Dispatch(d), f, v);
        }
      }
    }
  }

  lemma BaseKeepsStored(w: World, a: Act, f: FutureId, v: Option<Value>)
    requires Allowed(w, a) && Stored(w, f, v)
    ensures Stored(Step(w, a), f, v)
  {
    if a.Cycle? {
      CycleKeepsStored(w, f, v);
    } else if !Resolves(a) {
      OthersKeepFlags(w, a);
      StoredSame(w, Step(w, a), f, v);
    }
  }

  lemma {:induction false} StoredRun(s: Threads, acts: seq<ThreadAct>, f: FutureId, v: Option<Value>)
    requires CanDoAll(s, acts) && Stored(s.w, f, v)
    ensures Stored(DoAll(s, acts).w, f, v)
    decreases |acts|
  {
    if acts != [] {
      if acts[0].Base? { BaseKeepsStored(s.w, acts[0].a, f, v); }
      StoredRun(Do(s, acts[0]), acts[1..], f, v);
    }
  }

  /** Over every run, also one in which tasks register too late: what another thread stores in a
      future is there at once and stays, and so does a cancellation. */
  lemma StoredStays(s: Threads, f: FutureId, v: Value, acts: seq<ThreadAct>)
    requires CanDo(s, Store(f, v))
    ensures CanDo(s, StoreCancel(f))
    ensures CanDoAll(Do(s, Store(f, v)), acts) ==>
      Stored(DoAll(Do(s, Store(f, v)), acts).w, f, Some(v))
    ensures CanDoAll(Do(s, StoreCancel(f)), acts) ==>
      Stored(DoAll(Do(s, StoreCancel(f)), acts).w, f, None)
  {
    if CanDoAll(Do(s, Store(f, v)), acts) { StoredRun(Do(s, Store(f, v)), acts, f, Some(v)); }
    if CanDoAll(Do(s, StoreCancel(f)), acts) { StoredRun(Do(s, StoreCancel(f)), acts, f, None); }
  }
}
