/** Structured programs always come to an end; and if every worker joins its children, to
    a clean one. */
module Termination {
  import opened Options
  import opened LoopModel
  import opened Machine
  import opened Order
  import opened WakeTokens
  import opened Ownership
  import opened Programs

  // ------------------------------------------------------- no deadlock

  lemma {:induction false} TotalPositive<T>(places: seq<T>, count: (T, TaskId) -> nat, t: TaskId) returns (k: nat)
    requires Total(places, count, t) > 0
    ensures k < |places| && count(places[k], t) > 0
  {
    if count(places[0], t) > 0 {
      k := 0;
    } else {
      k := TotalPositive(places[1..], count, t);
      k := k + 1;
    }
  }

  /** A blocked task of a drained list waits for a task listed after it. */
  lemma BlockedWaitsForYounger(w: World, i: nat) returns (j: nat)
    requires OrderInv(w) && EndInv(w) && Numbered(w) && w.phase.Idle? && w.loop.toWake == []
    requires i < |w.loop.tasks| && w.loop.tasks[i].status == Wait && TokenAt(w, w.loop.tasks[i].id)
    requires forall f: FutureId :: FutureOk(w, f)
    ensures i < j < |All(w)|
  {
    var t := w.loop.tasks[i].id;
    assert Tokens(w, t) == Total(w.futures, InFuture, t);
    var f := TotalPositive(w.futures, InFuture, t);
    CountMember(w.futures[f].waiters, t);
    assert FutureOk(w, f);
    j := NotEndedIsListed(w, Owner(w, f));
    IdsIncrease(w);
    assert All(w)[i].id == t;
  }

  /** What holds between the drain of a cycle and its choice of a task. */
  lemma DrainedHolds(s: State)
    requires StructInv(s) && s.w.phase.Idle? && s.w.loop.running
    ensures WakesOnlyWaiting(s.w) && Selecting(Drain(s.w))
    ensures var d := Drain(s.w); OrderInv(d) && EndInv(d) && Numbered(d) && d.loop.toWake == []
    ensures forall f: FutureId :: FutureOk(Drain(s.w), f)
    ensures forall t :: TokenAt(Drain(s.w), t)
  {
    NeverStuck(s);
    EndDrain(s.w);
    forall f: FutureId ensures FutureOk(Drain(s.w), f) {
      assert FutureOk(s.w, f);
      FutureOkDrain(s.w, f);
    }
    forall t ensures TokenAt(Drain(s.w), t) {
      assert TokenAt(s.w, t);
      TokensDrain(s.w, t);
    }
  }

  /** Deadlock freedom: once the wake list is drained, the youngest listed task is not blocked. */
  lemma YoungestIsNotBlocked(s: State)
    requires StructInv(s) && s.w.phase.Idle? && s.w.loop.running
    ensures WakesOnlyWaiting(s.w) && Selecting(Drain(s.w))
    ensures var ts := Drain(s.w).loop.tasks; ts != [] && ts[|ts| - 1].status != Wait
  {
    DrainedHolds(s);
    var d := Drain(s.w);
    assert |All(d)| == |d.loop.tasks|;
    var last := |d.loop.tasks| - 1;
    if d.loop.tasks[last].status == Wait {
      assert TokenAt(d, d.loop.tasks[last].id);
      var j := BlockedWaitsForYounger(d, last);
      assert false;
    }
  }

  // ------------------------------------------------------- the measure

  /** The steps a listed task has left. */
  function TaskLoad(t: Task<FutureId>, rest: map<TaskId, Prog>): nat {
    if t.status == Done then 1 else if t.id in rest then Size(rest[t.id]) else 0
  }

  function Load(ts: seq<Task<FutureId>>, rest: map<TaskId, Prog>): nat {
    if ts == [] then 0 else TaskLoad(ts[0], rest) + Load(ts[1..], rest)
  }

  lemma {:induction false} LoadConcat(a: seq<Task<FutureId>>, b: seq<Task<FutureId>>, rest: map<TaskId, Prog>)
    ensures Load(a + b, rest) == Load(a, rest) + Load(b, rest)
  {
    if a == [] {
      assert a + b == b;
    } else {
      assert (a + b)[1..] == a[1..] + b;
      LoadConcat(a[1..], b, rest);
    }
  }

  lemma {:induction false} LoadSame(a: seq<Task<FutureId>>, b: seq<Task<FutureId>>,
                                    r: map<TaskId, Prog>, q: map<TaskId, Prog>)
    requires |a| == |b| && forall i :: 0 <= i < |a| ==> TaskLoad(a[i], r) == TaskLoad(b[i], q)
    ensures Load(a, r) == Load(b, q)
  {
    if a != [] {
      LoadSame(a[1..], b[1..], r, q);
    }
  }

  /** Only the task at `c` changes. */
  lemma LoadChange(a: seq<Task<FutureId>>, b: seq<Task<FutureId>>, c: nat, r: map<TaskId, Prog>, q: map<TaskId, Prog>)
    requires |a| == |b| && c < |a|
    requires forall i :: 0 <= i < |a| && i != c ==> TaskLoad(a[i], r) == TaskLoad(b[i], q)
    ensures Load(b, q) == Load(a, r) - TaskLoad(a[c], r) + TaskLoad(b[c], q)
  {
    assert a == a[..c] + ([a[c]] + a[c + 1..]);
    assert b == b[..c] + ([b[c]] + b[c + 1..]);
    LoadConcat(a[..c], [a[c]] + a[c + 1..], r);
    LoadConcat(b[..c], [b[c]] + b[c + 1..], q);
    LoadSame(a[..c], b[..c], r, q);
    LoadSame(a[c + 1..], b[c + 1..], r, q);
  }

  lemma LoadErase(a: seq<Task<FutureId>>, c: nat, r: map<TaskId, Prog>)
    requires c < |a|
    ensures Load(a[..c] + a[c + 1..], r) == Load(a, r) - TaskLoad(a[c], r)
  {
    assert a == a[..c] + ([a[c]] + a[c + 1..]);
    LoadConcat(a[..c], [a[c]] + a[c + 1..], r);
    LoadConcat(a[..c], a[c + 1..], r);
  }

  /** How far the cursor is from the youngest task. */
  function Distance(w: World): nat
    requires AllListed(w.loop.tasks, w.loop.toWake)
  {
    var l := Drained(w.loop);
    if l.current <= |l.tasks| then 1 + |l.tasks| - l.current else 0
  }

  function Rank(w: World): nat {
    if w.phase.Idle? && AllListed(w.loop.tasks, w.loop.toWake) then Distance(w) else 0
  }

  ghost predicate Decreases(s: State, n: State) {
    Load(All(n.w), n.rest) < Load(All(s.w), s.rest) ||
    (Load(All(n.w), n.rest) == Load(All(s.w), s.rest) && Rank(n.w) < Rank(s.w))
  }

  lemma LoadDrained(w: World, rest: map<TaskId, Prog>)
    requires OrderInv(w) && w.phase.Idle? && WakesOnlyWaiting(w) && w.loop.running
    ensures All(Drain(w)) == Drain(w).loop.tasks && Load(All(Drain(w)), rest) == Load(All(w), rest)
  {
    OrderDrain(w);
    AllAt(w);
    assert All(Drain(w)) == Drain(w).loop.tasks;
    LoadSame(All(w), All(Drain(w)), rest, rest);
  }

  lemma LoadDrain(s: State)
    requires StructInv(s) && s.w.phase.Idle? && s.w.loop.running
    ensures WakesOnlyWaiting(s.w)
    ensures Load(All(Drain(s.w)), s.rest) == Load(All(s.w), s.rest)
    ensures All(Drain(s.w)) == Drain(s.w).loop.tasks
  {
    TokensNameWaiting(s.w);
    LoadDrained(s.w, s.rest);
  }

  lemma DecreasesCleanUp(w: World, rest: map<TaskId, Prog>)
    requires Selecting(w) && Self(w).status == Done
    ensures CleanUp(w).phase.Orphaned? || Load(All(CleanUp(w)), rest) < Load(All(w), rest)
  {
    var u := CleanUp(w);
    if !u.phase.Orphaned? {
      CleanUpErases(w);
      assert All(w) == w.loop.tasks && All(u) == u.loop.tasks;
      LoadErase(w.loop.tasks, w.loop.current, rest);
    }
  }

  /** Skipping a blocked task brings the cursor nearer to the youngest. */
  lemma DecreasesSkip(w: World, rest: map<TaskId, Prog>)
    requires Selecting(w) && w.loop.toWake == [] && w.loop.current < |w.loop.tasks| - 1
    ensures var u := w.(loop := Advance(w.loop));
      All(u) == All(w) && Rank(u) < Distance(w)
  {
    var u := w.(loop := Advance(w.loop));
    assert w.loop.tasks + [] == w.loop.tasks;
  }

  /** Choosing an executable task starts a slice. */
  lemma DecreasesSelect(w: World, rest: map<TaskId, Prog>)
    requires Selecting(w) && w.loop.toWake == [] && (Self(w).status == Init || Self(w).status == Exec)
    ensures Load(All(Dispatch(w)), rest) == Load(All(w), rest) && Rank(Dispatch(w)) < Distance(w)
  {
    var u := Dispatch(w);
    assert All(w) == w.loop.tasks && All(u) == u.loop.tasks;
    LoadSame(All(w), All(u), rest, rest);
    assert w.loop.tasks + [] == w.loop.tasks;
  }

  lemma DecreasesDispatch(w: World, rest: map<TaskId, Prog>)
    requires Selecting(w) && w.loop.toWake == [] && w.loop.tasks[|w.loop.tasks| - 1].status != Wait
    ensures var u := Dispatch(w);
      u.phase.Orphaned? || Load(All(u), rest) < Load(All(w), rest) ||
      (Load(All(u), rest) == Load(All(w), rest) && Rank(u) < Distance(w))
  {
    match Self(w).status
    case Done => DecreasesCleanUp(w, rest);
    case Wait => DecreasesSkip(w, rest);
    case _ => DecreasesSelect(w, rest);
  }

  lemma DistanceDrain(w: World)
    requires AllListed(w.loop.tasks, w.loop.toWake)
    ensures Distance(Drain(w)) == Distance(w)
  {
    var l := Drained(w.loop);
    assert l.tasks + [] == l.tasks;
  }

  lemma CycleFalls(w: World, rest: map<TaskId, Prog>)
    requires AllListed(w.loop.tasks, w.loop.toWake) && w.phase.Idle? && Selecting(Drain(w))
    requires Load(All(Drain(w)), rest) == Load(All(w), rest)
    requires Drain(w).loop.tasks[|Drain(w).loop.tasks| - 1].status != Wait
    ensures var u := Dispatch(Drain(w));
      u.phase.Orphaned? || Load(All(u), rest) < Load(All(w), rest) ||
      (Load(All(u), rest) == Load(All(w), rest) && Rank(u) < Rank(w))
  {
    DistanceDrain(w);
    DecreasesDispatch(Drain(w), rest);
  }

  lemma DecreasesCycle(s: State)
    requires StructInv(s) && s.w.phase.Idle? && s.w.loop.running && CanStep(s)
    ensures Next(s).w.phase.Orphaned? || Decreases(s, Next(s))
  {
    YoungestIsNotBlocked(s);
    LoadDrain(s);
    CycleFalls(s.w, s.rest);
  }

  /** What a slice step does to the list. */
  lemma SliceKeepsOthers(w: World, a: Act)
    requires Allowed(w, a) && Structured(a) && !a.Cycle? && !a.Spawn?
    ensures var u, c := Step(w, a), w.loop.current;
      && c < |w.loop.tasks| == |u.loop.tasks| && u.loop.toStart == w.loop.toStart
      && (forall i :: 0 <= i < |w.loop.tasks| && i != c ==> u.loop.tasks[i] == w.loop.tasks[i])
      && u.loop.tasks[c].id == Self(w).id
      && u.loop.tasks[c].status == (if GivesBack(a) then LeavingStatus(a) else Self(w).status)
  {
    if GivesBack(a) { GivingBackLeaves(w, a); }
  }

  /** The executing task's program moves on; its status ends as DONE exactly if it returns. */
  lemma LoadMoved(s: State, u: World)
    requires OrderInv(s.w) && AtInstr(s) && !s.rest[Self(s.w).id].Fork? && Self(s.w).status == Exec
    requires |u.loop.tasks| == |s.w.loop.tasks| && u.loop.toStart == s.w.loop.toStart
    requires forall i :: 0 <= i < |s.w.loop.tasks| && i != s.w.loop.current ==> u.loop.tasks[i] == s.w.loop.tasks[i]
    requires u.loop.tasks[s.w.loop.current].id == Self(s.w).id
    requires u.loop.tasks[s.w.loop.current].status == Done <==> s.rest[Self(s.w).id].Ret?
    ensures Load(All(u), Advanced(s, Self(s.w).id).rest) < Load(All(s.w), s.rest)
  {
    var c := s.w.loop.current;
    IdsIncrease(s.w);
    AllAt(s.w);
    AllAt(u);
    assert forall i :: 0 <= i < |All(s.w)| && i != c ==> All(u)[i] == All(s.w)[i];
    LoadChange(All(s.w), All(u), c, s.rest, Advanced(s, Self(s.w).id).rest);
  }

  lemma DecreasesMove(s: State)
    requires OrderInv(s.w) && s.w.phase.Busy? && CanStep(s) && !s.rest[Self(s.w).id].Fork?
    ensures Decreases(s, Next(s))
  {
    NextIs(s);
    SliceKeepsOthers(s.w, NextAct(s));
    LoadMoved(s, Step(s.w, NextAct(s)));
  }

  /** The task at `c` has spawned `born`. */
  lemma LoadFork(ts: seq<Task<FutureId>>, c: nat, born: Task<FutureId>, rest: map<TaskId, Prog>)
    requires c < |ts| && ts[c].status == Exec && ts[c].id in rest && rest[ts[c].id].Fork? && born.status == Init
    requires forall i :: 0 <= i < |ts| ==> ts[i].id != born.id && (i != c ==> ts[i].id != ts[c].id)
    ensures var p := rest[ts[c].id];
      Load(ts + [born], rest[ts[c].id := p.next][born.id := p.child]) < Load(ts, rest)
  {
    var p := rest[ts[c].id];
    var q := rest[ts[c].id := p.next][born.id := p.child];
    LoadConcat(ts, [born], q);
    LoadChange(ts, ts, c, rest, q);
    assert Load([born], q) == TaskLoad(born, q);
  }

  lemma DecreasesFork(s: State)
    requires OrderInv(s.w) && s.w.phase.Busy? && CanStep(s) && s.rest[Self(s.w).id].Fork?
    ensures Decreases(s, Next(s))
  {
    var n, born := Next(s), Task(s.w.loop.nextId, Init, Some(|s.w.futures|));
    IdsIncrease(s.w);
    AllAt(s.w);
    assert All(n.w) == All(s.w) + [born];
    LoadFork(All(s.w), s.w.loop.current, born, s.rest);
  }

  lemma DecreasesInSlice(s: State)
    requires StructInv(s) && s.w.phase.Busy? && CanStep(s)
    ensures Decreases(s, Next(s))
  {
    ExecutingHasNotEnded(s.w);
    if s.rest[Self(s.w).id].Fork? { DecreasesFork(s); } else { DecreasesMove(s); }
  }

  lemma EveryStepDecreases(s: State)
    requires StructInv(s) && !Halted(s) && CanStep(s)
    ensures Next(s).w.phase.Orphaned? || Decreases(s, Next(s))
  {
    if s.w.phase.Idle? { DecreasesCycle(s); } else { DecreasesInSlice(s); }
  }
}
