/** Structured programs: workers that spawn tasks, await their own children, yield, and
    return. A task is a program and a saved position in it. */
module Programs {
  import opened LoopModel
  import opened Machine
  import opened Order
  import opened WakeTokens
  import opened Futures
  import opened Runs
  import opened Ownership

  /** What a worker has still to do. `Join(i, _)` awaits the i-th task it has spawned. */
  datatype Prog =
    | Ret(value: Value)
    | Fork(child: Prog, next: Prog)
    | Join(index: nat, next: Prog)
    | Pause(next: Prog)

  /** Only children already spawned are awaited; `n` of them are when `p` begins. */
  predicate WellFormed(p: Prog, n: nat) {
    match p
    case Ret(_) => true
    case Fork(c, q) => WellFormed(c, 0) && WellFormed(q, n + 1)
    case Join(i, q) => i < n && WellFormed(q, n)
    case Pause(q) => WellFormed(q, n)
  }

  predicate Joins(p: Prog, i: nat) {
    match p
    case Ret(_) => false
    case Fork(_, q) => Joins(q, i)
    case Join(k, q) => k == i || Joins(q, i)
    case Pause(q) => Joins(q, i)
  }

  /** Every worker awaits each child it spawns before it returns. */
  predicate JoinsAll(p: Prog, n: nat) {
    match p
    case Ret(_) => true
    case Fork(c, q) => JoinsAll(c, 0) && Joins(q, n) && JoinsAll(q, n + 1)
    case Join(_, q) => JoinsAll(q, n)
    case Pause(q) => JoinsAll(q, n)
  }

  /** The steps left in a program, with those of all the tasks it will spawn: each of them
      also has to be cleaned up. */
  function Size(p: Prog): nat {
    match p
    case Ret(_) => 2
    case Fork(c, q) => 1 + Size(c) + Size(q)
    case Join(_, q) => 1 + Size(q)
    case Pause(q) => 1 + Size(q)
  }

  datatype State = State(
    w: World,
    prog: map<TaskId, Prog>,             // what each task was made to run
    rest: map<TaskId, Prog>,             // what it has still to do
    kids: map<TaskId, seq<FutureId>>,    // the futures of a task's children, in order
    parent: map<TaskId, TaskId>)

  predicate Halted(s: State) {
    !s.w.loop.running || s.w.phase.Orphaned?
  }

  predicate AtInstr(s: State) {
    InSlice(s.w) &&
    var t := Self(s.w).id;
    t in s.rest && t in s.kids &&
    (s.rest[t].Join? ==> s.rest[t].index < |s.kids[t]| && s.kids[t][s.rest[t].index] < |s.w.futures|)
  }

  function NextAct(s: State): Act
    requires AtInstr(s)
  {
    var t := Self(s.w).id;
    match s.rest[t]
    case Ret(v) => Return(v)
    case Fork(_, _) => Spawn(true)
    case Join(i, _) =>
      var f := s.kids[t][i];
      if s.w.futures[f].completed then AwaitReady(f) else AwaitBlock(f)
    case Pause(_) => Yield
  }

  predicate CanStep(s: State) {
    if s.w.phase.Idle? then Allowed(s.w, Cycle) else AtInstr(s) && Allowed(s.w, NextAct(s))
  }

  function Forked(s: State, t: TaskId, c: Prog, q: Prog): State
    requires t in s.kids
  {
    var id := s.w.loop.nextId;
    s.(prog := s.prog[id := c],
       rest := s.rest[t := q][id := c],
       kids := s.kids[t := s.kids[t] + [|s.w.futures|]][id := []],
       parent := s.parent[id := t])
  }

  /** The executing task's saved position moves on. */
  function Advanced(s: State, t: TaskId): State
    requires t in s.kids && t in s.rest
  {
    match s.rest[t]
    case Ret(_) => s
    case Fork(c, q) => Forked(s, t, c, q)
    case Join(_, q) => s.(rest := s.rest[t := q])
    case Pause(q) => s.(rest := s.rest[t := q])
  }

  /** One step of the loop, or of the executing task. */
  function Next(s: State): State
    requires CanStep(s)
  {
    if s.w.phase.Idle? then s.(w := Step(s.w, Cycle))
    else Advanced(s, Self(s.w).id).(w := Step(s.w, NextAct(s)))
  }

  /** `run(main)` on a fresh loop. */
  function Begin(main: Prog, base: TaskId, keepGoing: bool): State {
    State(
      World(Launch(base), Idle, keepGoing, [], [], [], [], map[], map[],
            History(base, [], map[], [], [], [], [])),
      map[base := main], map[base := main], map[base := []], map[])
  }

  // ------------------------------------------------------- the invariant

  /** The task whose worker completes future `f`. */
  function Owner(w: World, f: FutureId): TaskId {
    w.hist.base + 1 + f
  }

  /** Futures are numbered like the tasks they belong to, and nothing else wakes tasks. */
  ghost predicate Numbered(w: World) {
    && |w.futures| == w.loop.nextId - w.hist.base - 1
    && (forall t :: t in w.wrapped <==> w.hist.base < t < w.loop.nextId)
    && (forall t :: t in w.wrapped ==> w.wrapped[t] == t - w.hist.base - 1)
    && w.events == [] && w.hands == [] && w.raw == []
    && w.loop.mainId == w.hist.base
  }

  /** The future bound to a task is its own. */
  ghost predicate BoundToOwn(w: World) {
    forall i :: 0 <= i < |All(w)| && All(w)[i].result.Some? ==> Owner(w, All(w)[i].result.value) == All(w)[i].id
  }

  /** A future is completed exactly when its task has returned. It is awaited only by tasks
      older than its own. */
  predicate FutureOk(w: World, f: FutureId) {
    f < |w.futures| ==>
      && !w.futures[f].cancelled
      && (w.futures[f].completed <==> Owner(w, f) in w.hist.ended)
      && (forall k :: 0 <= k < |w.futures[f].waiters| ==> w.futures[f].waiters[k] < Owner(w, f))
  }

  predicate PlaceOk(s: State, t: TaskId) {
    Spawned(s.w, t) ==>
      && t in s.rest && t in s.kids
      && WellFormed(s.rest[t], |s.kids[t]|)
      && (forall i :: 0 <= i < |s.kids[t]| ==> s.kids[t][i] < |s.w.futures| && t < Owner(s.w, s.kids[t][i]))
  }

  ghost predicate WorldOk(w: World) {
    && Inv(w) && EndInv(w) && RefInv(w)
    && Numbered(w) && BoundToOwn(w)
    && (w.phase.Idle? || w.phase.Busy? || w.phase.Orphaned?)
  }

  ghost predicate StructInv(s: State) {
    && WorldOk(s.w)
    && (forall f: FutureId :: FutureOk(s.w, f))
    && (forall t :: PlaceOk(s, t))
  }

  lemma StructBegins(main: Prog, base: TaskId, keepGoing: bool)
    requires base >= 0 && WellFormed(main, 0)
    ensures StructInv(Begin(main, base, keepGoing))
  {
    var s := Begin(main, base, keepGoing);
    OrderInitially(s.w);
    TokensInitially(s.w);
    FuturesInitially(s.w);
    EndInitially(s.w);
  }

  /** A structured program never breaks a rule, and never gets stuck. */
  lemma NeverStuck(s: State)
    requires StructInv(s) && !Halted(s)
    ensures CanStep(s)
  {
    if s.w.phase.Idle? {
      TokensNameWaiting(s.w);
      OrderDrain(s.w);
      var t := Self(Drain(s.w));
      assert t.result.Some? && t.result.value < |s.w.futures| ==> FutureOk(s.w, t.result.value);
    } else {
      ExecutingHasNotEnded(s.w);
      var t := Self(s.w).id;
      assert PlaceOk(s, t);
      if s.rest[t].Ret? {
        if t in s.w.wrapped { assert FutureOk(s.w, s.w.wrapped[t]); }
      } else if s.rest[t].Join? {
        assert FutureOk(s.w, s.kids[t][s.rest[t].index]);
      }
    }
  }

  // ------------------------------------------------------- what each step keeps

  /** Only the steps of structured programs. */
  predicate Structured(a: Act) {
    a.Cycle? || a == Spawn(true) || a.AwaitReady? || a.AwaitBlock? || a.Yield? || a.Return?
  }

  lemma CleanUpKeepsRest(w: World)
    requires w.loop.current < |w.loop.tasks|
    ensures var u := CleanUp(w);
      u.events == w.events && u.hands == w.hands && u.raw == w.raw && u.position == w.position
    ensures CleanUp(w).hist.base == w.hist.base && CleanUp(w).loop.nextId == w.loop.nextId
    ensures CleanUp(w).loop.mainId == w.loop.mainId
  {}

  lemma NumberedDispatch(w: World)
    requires w.loop.current < |w.loop.tasks| && Numbered(w)
    ensures Numbered(Dispatch(w))
  {
    if Self(w).status == Done {
      CleanUpKeeps(w);
      CleanUpKeepsRest(w);
    }
  }

  lemma NumberedStep(w: World, a: Act)
    requires Numbered(w) && Allowed(w, a) && Structured(a)
    requires a.Cycle? ==> AllListed(w.loop.tasks, w.loop.toWake) && Drain(w).loop.current < |Drain(w).loop.tasks|
    ensures Numbered(Step(w, a))
  {
    if a.Cycle? {
      NumberedDispatch(Drain(w));
    }
  }

  lemma BoundSame(w: World, u: World)
    requires BoundToOwn(w) && SameNames(w, u)
    ensures BoundToOwn(u)
  {}

  lemma BoundErased(w: World, u: World)
    requires BoundToOwn(w) && Erased(w, u)
    ensures BoundToOwn(u)
  {
    ErasedAt(w, u);
  }

  lemma BoundCycle(w: World)
    requires Inv(w) && BoundToOwn(w) && Allowed(w, Cycle)
    ensures BoundToOwn(DoCycle(w))
  {
    CycleKeepsNames(w);
    BoundSame(w, Drain(w));
    if SameNames(Drain(w), DoCycle(w)) { BoundSame(Drain(w), DoCycle(w)); } else { BoundErased(Drain(w), DoCycle(w)); }
  }

  lemma BoundInSlice(w: World, a: Act)
    requires Numbered(w) && BoundToOwn(w) && Allowed(w, a) && Structured(a) && !a.Cycle?
    ensures BoundToOwn(Step(w, a))
  {
    var u := Step(w, a);
    if a.Spawn? {
      assert All(u) == All(w) + [All(u)[|All(w)|]];
    } else {
      OthersKeepNames(w, a);
      BoundSame(w, u);
    }
  }

  lemma BoundDrain(w: World)
    requires Inv(w) && BoundToOwn(w) && Allowed(w, Cycle)
    ensures WakesOnlyWaiting(w) && BoundToOwn(Drain(w)) && Selecting(Drain(w)) && All(Drain(w)) == Drain(w).loop.tasks
  {
    CycleKeepsNames(w);
    BoundSame(w, Drain(w));
    assert All(Drain(w)) == Drain(w).loop.tasks;
  }

  lemma PhaseDispatch(w: World)
    requires w.phase.Idle? && w.loop.current < |w.loop.tasks|
    ensures var u := Dispatch(w); u.phase.Idle? || u.phase.Busy? || u.phase.Orphaned?
  {}

  lemma WorldStep(w: World, a: Act)
    requires WorldOk(w) && Allowed(w, a) && Structured(a)
    ensures WorldOk(Step(w, a))
  {
    StepKeepsInv(w, a);
    EndStep(w, a);
    if a.Cycle? {
      BoundDrain(w);
      BoundCycle(w);
      PhaseDispatch(Drain(w));
    } else {
      BoundInSlice(w, a);
    }
    NumberedStep(w, a);
  }

  /** Cleaning up a task of a structured program cancels nothing: its worker has returned. */
  lemma CleanUpCancelsNothing(w: World)
    requires EndInv(w) && BoundToOwn(w) && Selecting(w) && Self(w).status == Done
    requires Self(w).result.Some? ==> FutureOk(w, Self(w).result.value)
    ensures CleanUp(w).futures == w.futures
  {
    assert All(w)[w.loop.current] == Self(w);
  }

  lemma FutureOkDispatch(w: World, f: FutureId)
    requires EndInv(w) && BoundToOwn(w) && Selecting(w) && FutureOk(w, f)
    requires Self(w).result.Some? ==> FutureOk(w, Self(w).result.value)
    ensures FutureOk(Dispatch(w), f)
  {
    if Self(w).status == Done {
      CleanUpCancelsNothing(w);
      CleanUpKeeps(w);
      CleanUpKeepsRest(w);
    }
  }

  lemma FutureOkDrain(w: World, f: FutureId)
    requires AllListed(w.loop.tasks, w.loop.toWake) && FutureOk(w, f)
    ensures FutureOk(Drain(w), f)
  {}

  lemma FutureOkCycle(w: World, f: FutureId)
    requires WorldOk(w) && Allowed(w, Cycle) && FutureOk(w, f)
    requires forall g: FutureId :: FutureOk(w, g)
    ensures FutureOk(DoCycle(w), f)
  {
    BoundDrain(w);
    EndDrain(w);
    FutureOkDrain(w, f);
    var d := Drain(w);
    if Self(d).result.Some? {
      FutureOkDrain(w, Self(d).result.value);
    }
    FutureOkDispatch(d, f);
    assert DoCycle(w) == Dispatch(d);
  }

  lemma FutureOkInSlice(w: World, a: Act, f: FutureId)
    requires WorldOk(w) && Allowed(w, a) && Structured(a) && !a.Cycle? && FutureOk(w, f)
    requires a.AwaitBlock? ==> Self(w).id < Owner(w, a.f)
    ensures FutureOk(Step(w, a), f)
  {
    ExecutingHasNotEnded(w);
    if a.Spawn? && f == |w.futures| {
      assert Owner(w, f) !in w.hist.ended;
    }
  }

  lemma FuturesNext(s: State, f: FutureId)
    requires StructInv(s) && CanStep(s)
    ensures FutureOk(Next(s).w, f)
  {
    assert FutureOk(s.w, f);
    if s.w.phase.Idle? {
      FutureOkCycle(s.w, f);
    } else {
      assert PlaceOk(s, Self(s.w).id);
      ExecutingHasNotEnded(s.w);
      FutureOkInSlice(s.w, NextAct(s), f);
    }
  }

  lemma DispatchKeepsCounts(w: World)
    requires w.loop.current < |w.loop.tasks|
    ensures var u := Dispatch(w);
      u.loop.nextId == w.loop.nextId && u.hist.base == w.hist.base && |u.futures| == |w.futures|
  {
    if Self(w).status == Done {
      CleanUpKeeps(w);
      CleanUpKeepsRest(w);
    }
  }

  lemma PlacesCycle(s: State, t: TaskId)
    requires WorldOk(s.w) && Allowed(s.w, Cycle) && PlaceOk(s, t)
    ensures PlaceOk(s.(w := DoCycle(s.w)), t)
  {
    BoundDrain(s.w);
    DispatchKeepsCounts(Drain(s.w));
  }

  lemma PlacesFork(s: State, t: TaskId)
    requires Numbered(s.w) && s.w.phase.Busy? && CanStep(s) && PlaceOk(s, t)
    requires Spawned(s.w, Self(s.w).id) && s.rest[Self(s.w).id].Fork? && PlaceOk(s, Self(s.w).id)
    ensures PlaceOk(Next(s), t)
  {
    var me, id := Self(s.w).id, s.w.loop.nextId;
    var n := Next(s);
    assert |n.w.futures| == |s.w.futures| + 1 && n.w.loop.nextId == id + 1 && n.w.hist.base == s.w.hist.base;
    if t == me {
      assert n.kids[t] == s.kids[t] + [|s.w.futures|];
    } else if t == id {
      assert n.kids[t] == [];
    } else {
      assert Spawned(n.w, t) ==> n.kids[t] == s.kids[t] && n.rest[t] == s.rest[t];
    }
  }

  /** The world the next slice step leads to; the rest of the state is `Advanced`. */
  lemma NextIs(s: State)
    requires s.w.phase.Busy? && CanStep(s)
    ensures Next(s) == Advanced(s, Self(s.w).id).(w := Step(s.w, NextAct(s)))
    ensures Structured(NextAct(s)) && !NextAct(s).Cycle? && (NextAct(s).Spawn? <==> s.rest[Self(s.w).id].Fork?)
  {}

  ghost predicate SameCounts(w: World, u: World) {
    u.hist.base == w.hist.base && u.loop.nextId == w.loop.nextId && |u.futures| == |w.futures|
  }

  lemma SliceKeepsCounts(w: World, a: Act)
    requires Allowed(w, a) && Structured(a) && !a.Cycle? && !a.Spawn?
    ensures SameCounts(w, Step(w, a))
  {}

  /** The worker's program moves on, in a world with as many tasks and futures. */
  lemma PlacesMoved(s: State, u: World, t: TaskId)
    requires AtInstr(s) && PlaceOk(s, t) && !s.rest[Self(s.w).id].Fork? && SameCounts(s.w, u)
    ensures PlaceOk(Advanced(s, Self(s.w).id).(w := u), t)
  {
    assert Advanced(s, Self(s.w).id).kids == s.kids;
  }

  lemma PlacesMove(s: State, t: TaskId)
    requires s.w.phase.Busy? && CanStep(s) && PlaceOk(s, t) && !s.rest[Self(s.w).id].Fork?
    ensures PlaceOk(Next(s), t)
  {
    NextIs(s);
    SliceKeepsCounts(s.w, NextAct(s));
    PlacesMoved(s, Step(s.w, NextAct(s)), t);
  }

  lemma PlacesNext(s: State, t: TaskId)
    requires StructInv(s) && CanStep(s)
    ensures PlaceOk(Next(s), t)
  {
    assert PlaceOk(s, t);
    if s.w.phase.Idle? {
      PlacesCycle(s, t);
    } else {
      ExecutingHasNotEnded(s.w);
      assert PlaceOk(s, Self(s.w).id);
      if s.rest[Self(s.w).id].Fork? { PlacesFork(s, t); } else { PlacesMove(s, t); }
    }
  }

  function ActOf(s: State): Act
    requires CanStep(s)
  {
    if s.w.phase.Idle? then Cycle else NextAct(s)
  }

  lemma StructNext(s: State)
    requires StructInv(s) && CanStep(s)
    ensures StructInv(Next(s))
  {
    WorldStep(s.w, ActOf(s));
    forall f: FutureId ensures FutureOk(Next(s).w, f) { FuturesNext(s, f); }
    forall t ensures PlaceOk(Next(s), t) { PlacesNext(s, t); }
  }
}
