/** Wake tokens. Every blocked task has its id in exactly one place from which it can
    reach the loop's wake list, and no other task has one anywhere. */
module WakeTokens {
  import opened LoopModel
  import opened FutureModel
  import opened Machine
  import opened Order

  // ------------------------------------------------------- counting an id over places

  function Count(ids: seq<TaskId>, t: TaskId): nat {
    multiset(ids)[t]
  }

  lemma CountAppend(a: seq<TaskId>, b: seq<TaskId>, t: TaskId)
    ensures Count(a + b, t) == Count(a, t) + Count(b, t)
  {}

  lemma CountMember(ids: seq<TaskId>, t: TaskId)
    ensures Count(ids, t) > 0 <==> t in ids
  {}

  /** One occurrence of `id` less, if there is one. */
  lemma {:induction false} CountWithout(ids: seq<TaskId>, id: TaskId, t: TaskId)
    ensures Count(Without(ids, id), t) == Count(ids, t) - if t == id && id in ids then 1 else 0
    decreases |ids|
  {
    if ids != [] {
      assert ids == [ids[0]] + ids[1..];
      CountAppend([ids[0]], ids[1..], t);
      if ids[0] != id {
        CountWithout(ids[1..], id, t);
        CountAppend([ids[0]], Without(ids[1..], id), t);
      }
    }
  }

  function Total<T>(places: seq<T>, count: (T, TaskId) -> nat, t: TaskId): nat {
    if places == [] then 0 else count(places[0], t) + Total(places[1..], count, t)
  }

  lemma {:induction false} TotalUpdate<T>(places: seq<T>, count: (T, TaskId) -> nat, k: nat, x: T, t: TaskId)
    requires k < |places|
    ensures Total(places[k := x], count, t) == Total(places, count, t) - count(places[k], t) + count(x, t)
  {
    if k == 0 {
      assert places[k := x][1..] == places[1..];
    } else {
      assert places[k := x][1..] == places[1..][k - 1 := x];
      TotalUpdate(places[1..], count, k - 1, x, t);
    }
  }

  lemma {:induction false} TotalAppend<T>(places: seq<T>, count: (T, TaskId) -> nat, x: T, t: TaskId)
    ensures Total(places + [x], count, t) == Total(places, count, t) + count(x, t)
  {
    if places == [] {
      assert (places + [x])[1..] == [];
    } else {
      assert (places + [x])[1..] == places[1..] + [x];
      TotalAppend(places[1..], count, x, t);
    }
  }

  lemma {:induction false} TotalAtLeast<T>(places: seq<T>, count: (T, TaskId) -> nat, k: nat, t: TaskId)
    requires k < |places|
    ensures count(places[k], t) <= Total(places, count, t)
  {
    if k > 0 {
      TotalAtLeast(places[1..], count, k - 1, t);
    }
  }

  lemma {:induction false} TotalZero<T>(places: seq<T>, count: (T, TaskId) -> nat, t: TaskId)
    requires forall k :: 0 <= k < |places| ==> count(places[k], t) == 0
    ensures Total(places, count, t) == 0
  {
    if places != [] {
      assert forall k :: 0 <= k < |places| - 1 ==> places[1..][k] == places[k + 1];
      TotalZero(places[1..], count, t);
    }
  }

  // ------------------------------------------------------- tokens

  function InFuture(f: Future<Value>, t: TaskId): nat {
    if f.Resolved() then 0 else Count(f.waiters, t)
  }

  function InList(ids: seq<TaskId>, t: TaskId): nat {
    Count(ids, t)
  }

  function InHand(h: Hand, t: TaskId): nat {
    Count(h.ids, t)
  }

  /** How often `t` occurs where a wake-up can come from: in unresolved futures, in events,
      in the hands of notifying threads, among raw waits, and in the wake list itself. */
  function Tokens(w: World, t: TaskId): nat {
    Total(w.futures, InFuture, t) + Total(w.events, InList, t) + Total(w.hands, InHand, t)
    + Count(w.raw, t) + Count(w.loop.toWake, t)
  }

  predicate Waits<F>(ts: seq<Task<F>>, t: TaskId) {
    exists i :: 0 <= i < |ts| && ts[i].id == t && ts[i].status == Wait
  }

  /** `t` is blocked, or already in an event's list and about to block. */
  predicate Blocked(w: World, t: TaskId) {
    Waits(w.loop.tasks, t) || (w.phase.Saved? && w.loop.current < |w.loop.tasks| && Self(w).id == t)
  }

  predicate TokenAt(w: World, t: TaskId) {
    Tokens(w, t) == if Blocked(w, t) then 1 else 0
  }

  ghost predicate TokenInv(w: World) {
    forall t :: TokenAt(w, t)
  }

  lemma TokensInitially(w: World)
    requires Initial(w)
    ensures TokenInv(w)
  {
    forall t ensures TokenAt(w, t) {
      TotalZero(w.futures, InFuture, t);
      TotalZero(w.events, InList, t);
      TotalZero(w.hands, InHand, t);
    }
  }

  lemma WokenIsWaiting(w: World, t: TaskId)
    requires TokenAt(w, t) && !w.phase.Saved? && t in w.loop.toWake
    ensures Waits(w.loop.tasks, t)
  {
    CountMember(w.loop.toWake, t);
  }

  /** Tasks in the wake list are blocked tasks, so draining it finds each of them and
      changes nothing but WAIT to EXEC. */
  lemma TokensNameWaiting(w: World)
    requires TokenInv(w) && OrderInv(w) && !w.phase.Saved?
    ensures WakesOnlyWaiting(w)
  {
    forall k | 0 <= k < |w.loop.toWake| ensures Listed(w.loop.tasks, w.loop.toWake[k]) {
      WokenIsWaiting(w, w.loop.toWake[k]);
    }
    forall i | 0 <= i < |w.loop.tasks| && w.loop.tasks[i].id in w.loop.toWake
      ensures w.loop.tasks[i].status == Wait
    {
      WokenIsWaiting(w, w.loop.tasks[i].id);
      IdsIncrease(w);
    }
  }

  // ------------------------------------------------------- steps that only move tokens

  lemma ResolveTokens(w: World, f: FutureId, x: Future<Value>, t: TaskId)
    requires Unresolved(w, f) && x.Resolved()
    ensures Tokens(Push(w, w.futures[f].waiters).(futures := w.futures[f := x]), t) == Tokens(w, t)
  {
    CountAppend(w.loop.toWake, w.futures[f].waiters, t);
    TotalUpdate(w.futures, InFuture, f, x, t);
  }

  lemma CompleteTokens(w: World, f: FutureId, v: Value, t: TaskId)
    requires Unresolved(w, f)
    ensures Tokens(CompleteFuture(w, f, v), t) == Tokens(w, t)
  {
    ResolveTokens(w, f, w.futures[f].(completed := true, value := v), t);
  }

  lemma CancelTokens(w: World, f: FutureId, t: TaskId)
    requires Unresolved(w, f)
    ensures Tokens(CancelFuture(w, f), t) == Tokens(w, t)
  {
    ResolveTokens(w, f, w.futures[f].(cancelled := true), t);
  }

  /** Splitting the list of an event. */
  lemma EventTokens(w: World, e: EventId, r: Notified, t: TaskId)
    requires e < |w.events| && r.woken + r.rest == w.events[e]
    ensures Total(w.events[e := r.rest], InList, t) == Total(w.events, InList, t) - Count(r.woken, t)
  {
    TotalUpdate(w.events, InList, e, r.rest, t);
    CountAppend(r.woken, r.rest, t);
  }

  lemma NotifyTokens(w: World, e: EventId, all: bool, t: TaskId)
    requires e < |w.events|
    ensures Tokens(DoNotify(w, e, all), t) == Tokens(w, t)
  {
    var r := Notifying(w.events[e], all);
    EventTokens(w, e, r, t);
    CountAppend(w.loop.toWake, r.woken, t);
  }

  lemma RawNotifyTokens(w: World, id: TaskId, t: TaskId)
    requires id in w.raw
    ensures Tokens(DoRawNotify(w, id), t) == Tokens(w, t)
  {
    CountAppend(w.loop.toWake, [id], t);
    CountWithout(w.raw, id, t);
  }

  lemma TakeTokens(w: World, k: nat, e: EventId, all: bool, t: TaskId)
    requires k < |w.hands| && w.hands[k].ids == [] && e < |w.events|
    ensures Tokens(DoTake(w, k, e, all), t) == Tokens(w, t)
  {
    var r := Notifying(w.events[e], all);
    EventTokens(w, e, r, t);
    TotalUpdate(w.hands, InHand, k, Hand(e, r.woken), t);
  }

  lemma DeliverTokens(w: World, k: nat, t: TaskId)
    requires k < |w.hands| && w.hands[k].ids != []
    ensures Tokens(DoDeliver(w, k), t) == Tokens(w, t)
  {
    var h := w.hands[k];
    CountAppend(w.loop.toWake, [h.ids[0]], t);
    TotalUpdate(w.hands, InHand, k, h.(ids := h.ids[1..]), t);
    assert h.ids == [h.ids[0]] + h.ids[1..];
    CountAppend([h.ids[0]], h.ids[1..], t);
  }

  /** Steps that create futures or events, or record an await, leave the tokens alone. */
  predicate MovesNoToken(a: Act) {
    a.Spawn? || a.NewFuture? || a.NewEvent? || a.Bind? || a.AwaitReady?
  }

  /** Nothing that holds tokens differs. */
  predicate SamePlaces(w: World, u: World) {
    && u.futures == w.futures && u.events == w.events && u.hands == w.hands
    && u.raw == w.raw && u.loop.toWake == w.loop.toWake
  }

  lemma SpawnTokens(w: World, wraps: bool, t: TaskId)
    ensures Tokens(DoSpawn(w, wraps), t) == Tokens(w, t)
  {
    if wraps { TotalAppend(w.futures, InFuture, FRESH, t); }
  }

  lemma QuietTokens(w: World, a: Act, t: TaskId)
    requires Allowed(w, a) && MovesNoToken(a)
    ensures Tokens(Step(w, a), t) == Tokens(w, t)
  {
    if a.Spawn? {
      SpawnTokens(w, a.wraps, t);
    } else if a.NewFuture? {
      TotalAppend(w.futures, InFuture, FRESH, t);
    } else if a.NewEvent? {
      TotalAppend(w.events, InList, [], t);
    }
  }

  predicate MovesTokens(a: Act) {
    a.Complete? || a.Cancel? || a.NotifyOne? || a.NotifyAll? || a.RawNotify? || a.Take? || a.Deliver?
  }

  lemma MovedTokens(w: World, a: Act, t: TaskId)
    requires Allowed(w, a) && MovesTokens(a)
    ensures Tokens(Step(w, a), t) == Tokens(w, t)
  {
    match a
    case Complete(f, v) => CompleteTokens(w, f, v, t);
    case Cancel(f) => CancelTokens(w, f, t);
    case NotifyOne(e) => NotifyTokens(w, e, false, t);
    case NotifyAll(e) => NotifyTokens(w, e, true, t);
    case RawNotify(id) => RawNotifyTokens(w, id, t);
    case Take(k, e, all) => TakeTokens(w, k, e, all, t);
    case Deliver(k) => DeliverTokens(w, k, t);
  }

  /** Which tasks are blocked is told by ids and statuses alone. */
  lemma BlockedQuiet(w: World, u: World, t: TaskId)
    requires |w.loop.tasks| == |u.loop.tasks| && w.loop.current == u.loop.current && w.phase == u.phase
    requires forall i :: 0 <= i < |w.loop.tasks| ==>
      w.loop.tasks[i].id == u.loop.tasks[i].id && w.loop.tasks[i].status == u.loop.tasks[i].status
    ensures Blocked(w, t) == Blocked(u, t)
  {
    if Waits(w.loop.tasks, t) {
      var i :| 0 <= i < |w.loop.tasks| && w.loop.tasks[i].id == t && w.loop.tasks[i].status == Wait;
      assert u.loop.tasks[i].id == t;
    }
  }

  lemma InSliceQuiet(w: World, a: Act, t: TaskId)
    requires Allowed(w, a) && (MovesTokens(a) || MovesNoToken(a))
    ensures Blocked(Step(w, a), t) == Blocked(w, t)
  {
    BlockedQuiet(w, Step(w, a), t);
  }

  lemma TokensInSlice(w: World, a: Act, t: TaskId)
    requires TokenAt(w, t) && Allowed(w, a) && (MovesTokens(a) || MovesNoToken(a))
    ensures TokenAt(Step(w, a), t)
  {
    if MovesTokens(a) { MovedTokens(w, a, t); } else { QuietTokens(w, a, t); }
    InSliceQuiet(w, a, t);
  }

  // ------------------------------------------------------- steps that make or end a wait

  lemma WaitsUpdate<F>(ts: seq<Task<F>>, c: nat, s: Status, t: TaskId)
    requires DistinctIds(ts) && c < |ts|
    ensures Waits(ts[c := ts[c].(status := s)], t) == if t == ts[c].id then s == Wait else Waits(ts, t)
  {
    var us := ts[c := ts[c].(status := s)];
    assert forall i :: 0 <= i < |ts| && i != c ==> us[i] == ts[i];
    assert us[c].id == ts[c].id && us[c].status == s;
    if t == ts[c].id {
      assert forall i :: 0 <= i < |us| && us[i].id == t ==> i == c;
    } else if Waits(ts, t) {
      var i :| 0 <= i < |ts| && ts[i].id == t && ts[i].status == Wait;
      assert us[i] == ts[i];
    }
  }

  /** An executing task is not blocked, so it has no token. */
  lemma ExecutingIsNotBlocked(w: World)
    requires OrderInv(w) && InSlice(w)
    ensures !Blocked(w, Self(w).id)
  {
    IdsIncrease(w);
  }

  lemma BlockedLeaves(w: World, a: Act, t: TaskId)
    requires OrderInv(w) && Allowed(w, a) && GivesBack(a)
    ensures Blocked(Step(w, a), t) == if t == Self(w).id then LeavingStatus(a) == Wait else Blocked(w, t)
  {
    GivingBackLeaves(w, a);
    IdsIncrease(w);
    WaitsUpdate(w.loop.tasks, w.loop.current, LeavingStatus(a), t);
  }

  lemma AwaitTokens(w: World, f: FutureId, t: TaskId)
    requires InSlice(w) && Unresolved(w, f)
    ensures Tokens(DoAwaitBlock(w, f), t) == Tokens(w, t) + if t == Self(w).id then 1 else 0
  {
    CountAppend(w.futures[f].waiters, [Self(w).id], t);
    TotalUpdate(w.futures, InFuture, f, w.futures[f].(waiters := w.futures[f].waiters + [Self(w).id]), t);
  }

  lemma RawWaitTokens(w: World, t: TaskId)
    requires InSlice(w)
    ensures Tokens(DoRawWait(w), t) == Tokens(w, t) + if t == Self(w).id then 1 else 0
  {
    CountAppend(w.raw, [Self(w).id], t);
  }

  lemma ReturnTokens(w: World, v: Value, t: TaskId)
    requires Allowed(w, Return(v))
    ensures Tokens(DoReturn(w, v), t) == Tokens(w, t)
  {
    if Self(w).id in w.wrapped {
      CompleteTokens(w, w.wrapped[Self(w).id], v, t);
      assert SamePlaces(CompleteFuture(w, w.wrapped[Self(w).id], v), DoReturn(w, v));
    }
  }

  lemma LeavingTokens(w: World, a: Act, t: TaskId)
    requires Allowed(w, a) && GivesBack(a)
    ensures Tokens(Step(w, a), t) == Tokens(w, t) + if (a.AwaitBlock? || a.RawWait?) && t == Self(w).id then 1 else 0
  {
    if a.AwaitBlock? {
      AwaitTokens(w, a.f, t);
    } else if a.RawWait? {
      RawWaitTokens(w, t);
    } else if a.Return? {
      ReturnTokens(w, a.v, t);
    }
  }

  /** Only a task that has saved itself in an event counts as blocked before it blocks. */
  lemma CurrentIsBlocked(w: World, a: Act)
    requires OrderInv(w) && Allowed(w, a) && GivesBack(a)
    ensures Blocked(w, Self(w).id) <==> a.Suspend?
  {
    if !a.Suspend? { ExecutingIsNotBlocked(w); }
  }

  lemma TokensLeft(w: World, u: World, a: Act, t: TaskId)
    requires TokenAt(w, t) && w.loop.current < |w.loop.tasks| && GivesBack(a)
    requires Blocked(u, t) == if t == Self(w).id then LeavingStatus(a) == Wait else Blocked(w, t)
    requires Tokens(u, t) == Tokens(w, t) + if (a.AwaitBlock? || a.RawWait?) && t == Self(w).id then 1 else 0
    requires Blocked(w, Self(w).id) <==> a.Suspend?
    ensures TokenAt(u, t)
  {}

  lemma TokensLeave(w: World, a: Act, t: TaskId)
    requires TokenAt(w, t) && OrderInv(w) && Allowed(w, a) && GivesBack(a)
    ensures TokenAt(Step(w, a), t)
  {
    BlockedLeaves(w, a, t);
    LeavingTokens(w, a, t);
    CurrentIsBlocked(w, a);
    TokensLeft(w, Step(w, a), a, t);
  }

  lemma TokensSaveWaiter(w: World, e: EventId, t: TaskId)
    requires TokenAt(w, t) && OrderInv(w) && Allowed(w, SaveWaiter(e))
    ensures TokenAt(DoSaveWaiter(w, e), t)
  {
    ExecutingIsNotBlocked(w);
    CountAppend(w.events[e], [Self(w).id], t);
    TotalUpdate(w.events, InList, e, w.events[e] + [Self(w).id], t);
  }

  // ------------------------------------------------------- the loop's own steps

  lemma BlockedDrains(w: World, t: TaskId)
    requires OrderInv(w) && w.phase.Idle? && w.loop.running && WakesOnlyWaiting(w)
    ensures Blocked(Drain(w), t) == (Blocked(w, t) && t !in w.loop.toWake)
  {
    var u := Drain(w);
    OrderDrain(w);
    IdsIncrease(w);
    AllAt(w);
    if Blocked(u, t) {
      var i :| 0 <= i < |u.loop.tasks| && u.loop.tasks[i].id == t && u.loop.tasks[i].status == Wait;
      assert i < |w.loop.tasks|;
      assert w.loop.tasks[i] == u.loop.tasks[i];
    }
    if Blocked(w, t) && t !in w.loop.toWake {
      var i :| 0 <= i < |w.loop.tasks| && w.loop.tasks[i].id == t && w.loop.tasks[i].status == Wait;
      assert u.loop.tasks[i] == w.loop.tasks[i];
    }
  }

  lemma TokensDrain(w: World, t: TaskId)
    requires TokenAt(w, t) && OrderInv(w) && w.phase.Idle? && w.loop.running && WakesOnlyWaiting(w)
    ensures TokenAt(Drain(w), t)
  {
    BlockedDrains(w, t);
    CountMember(w.loop.toWake, t);
    if t in w.loop.toWake {
      WokenIsWaiting(w, t);
    }
  }

  lemma WaitsErase<F>(ts: seq<Task<F>>, c: nat, t: TaskId)
    requires c < |ts| && ts[c].status != Wait
    ensures Waits(ts[..c] + ts[c + 1..], t) == Waits(ts, t)
  {
    var us := ts[..c] + ts[c + 1..];
    if Waits(ts, t) {
      var i :| 0 <= i < |ts| && ts[i].id == t && ts[i].status == Wait;
      assert us[if i < c then i else i - 1] == ts[i];
    }
    if Waits(us, t) {
      var i :| 0 <= i < |us| && us[i].id == t && us[i].status == Wait;
      assert us[i] == ts[if i < c then i else i + 1];
    }
  }

  lemma BlockedCleanUp(w: World, t: TaskId)
    requires Selecting(w) && Self(w).status == Done
    ensures Blocked(CleanUp(w), t) == Blocked(w, t)
  {
    if !CleanUp(w).phase.Orphaned? {
      CleanUpErases(w);
      WaitsErase(w.loop.tasks, w.loop.current, t);
    }
  }

  /** The future `cleanUpTask` would cancel has not been cancelled before. */
  predicate ResultNotCancelled(w: World)
    requires w.loop.current < |w.loop.tasks|
  {
    Self(w).result.Some? && Self(w).result.value < |w.futures| ==> !w.futures[Self(w).result.value].cancelled
  }

  lemma CleanUpTokens(w: World, t: TaskId)
    requires w.phase.Idle? && w.loop.current < |w.loop.tasks| && ResultNotCancelled(w)
    ensures Tokens(CleanUp(w), t) == Tokens(w, t)
  {
    var u, r := CleanUp(w), Self(w).result;
    if !u.phase.Orphaned? && r.Some? && r.value < |w.futures| && !w.futures[r.value].completed {
      CancelTokens(w, r.value, t);
      assert SamePlaces(CancelFuture(w, r.value), u);
    } else {
      assert SamePlaces(w, u);
    }
  }

  /** Starting or resuming a task, or skipping one that waits, neither adds nor ends a wait. */
  lemma TokensSelect(w: World, t: TaskId)
    requires TokenAt(w, t) && OrderInv(w) && Selecting(w) && Self(w).status != Done
    ensures TokenAt(Dispatch(w), t)
  {
    if Self(w).status == Init {
      IdsIncrease(w);
      WaitsUpdate(w.loop.tasks, w.loop.current, Exec, t);
    }
  }

  lemma TokensCycle(w: World, t: TaskId)
    requires TokenInv(w) && OrderInv(w) && Allowed(w, Cycle)
    ensures TokenAt(DoCycle(w), t)
  {
    TokensNameWaiting(w);
    OrderDrain(w);
    TokensDrain(w, t);
    var d := Drain(w);
    if Self(d).status == Done {
      BlockedCleanUp(d, t);
      CleanUpTokens(d, t);
    } else {
      TokensSelect(d, t);
    }
  }

  lemma TokensStep(w: World, a: Act)
    requires TokenInv(w) && OrderInv(w) && Allowed(w, a)
    ensures TokenInv(Step(w, a))
  {
    forall t ensures TokenAt(Step(w, a), t) {
      assert TokenAt(w, t);
      if a.Cycle? {
        TokensCycle(w, t);
      } else if a.SaveWaiter? {
        TokensSaveWaiter(w, a.e, t);
      } else if GivesBack(a) {
        TokensLeave(w, a, t);
      } else {
        TokensInSlice(w, a, t);
      }
    }
  }
}
