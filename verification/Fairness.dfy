/** Round-robin fairness: how many cycles a task can be passed over. */
module Fairness {
  import opened LoopModel
  import opened Machine
  import opened Order
  import opened WakeTokens
  import opened Runs

  // ------------------------------------------------------- cycles owed to a list

  /** How many cycles a task can take before the cursor has passed it: one to run and one
      to be cleaned up, or the clean-up alone. */
  function Cost<F>(t: Task<F>): nat {
    if t.status == Done then 1 else 2
  }

  function Costs<F>(ts: seq<Task<F>>): nat {
    if ts == [] then 0 else Cost(ts[0]) + Costs(ts[1..])
  }

  lemma {:induction false} CostsConcat<F>(a: seq<Task<F>>, b: seq<Task<F>>)
    ensures Costs(a + b) == Costs(a) + Costs(b)
  {
    if a == [] {
      assert a + b == b;
    } else {
      assert (a + b)[1..] == a[1..] + b;
      CostsConcat(a[1..], b);
    }
  }

  lemma {:induction false} CostsSame<F>(a: seq<Task<F>>, b: seq<Task<F>>)
    requires |a| == |b| && forall i :: 0 <= i < |a| ==> Cost(a[i]) == Cost(b[i])
    ensures Costs(a) == Costs(b)
  {
    if a != [] {
      CostsSame(a[1..], b[1..]);
    }
  }

  lemma {:induction false} CostsBound<F>(ts: seq<Task<F>>)
    ensures Costs(ts) <= 2 * |ts|
  {
    if ts != [] {
      CostsBound(ts[1..]);
    }
  }

  /** The cycles owed to the tasks from the cursor `c` round to position `p`. */
  function Ahead<F>(ts: seq<Task<F>>, c: nat, p: nat): nat
    requires c <= |ts| && p < |ts|
  {
    if c <= p then Costs(ts[c..p]) else Costs(ts[c..]) + Costs(ts[..p])
  }

  lemma AheadSame<F>(a: seq<Task<F>>, b: seq<Task<F>>, c: nat, p: nat)
    requires |a| == |b| && c <= |a| && p < |a| && forall i :: 0 <= i < |a| ==> Cost(a[i]) == Cost(b[i])
    ensures Ahead(a, c, p) == Ahead(b, c, p)
  {
    if c <= p {
      CostsSame(a[c..p], b[c..p]);
    } else {
      CostsSame(a[c..], b[c..]);
      CostsSame(a[..p], b[..p]);
    }
  }

  /** The cursor moves on. */
  lemma AheadNext<F>(ts: seq<Task<F>>, c: nat, p: nat)
    requires c < |ts| && p < |ts| && c != p
    ensures Ahead(ts, c + 1, p) == Ahead(ts, c, p) - Cost(ts[c])
  {
    if c < p {
      assert ts[c..p][1..] == ts[c + 1..p];
    } else {
      assert ts[c..][1..] == ts[c + 1..];
    }
  }

  /** The task at the cursor is erased. */
  lemma AheadErase<F>(ts: seq<Task<F>>, c: nat, p: nat)
    requires c < |ts| && p < |ts| && c != p
    ensures var q := if c < p then p - 1 else p;
      Ahead(ts[..c] + ts[c + 1..], c, q) == Ahead(ts, c, p) - Cost(ts[c])
  {
    var us := ts[..c] + ts[c + 1..];
    AheadNext(ts, c, p);
    if c < p {
      assert us[c..p - 1] == ts[c + 1..p];
    } else {
      assert us[c..] == ts[c + 1..];
      assert us[..p] == ts[..p];
    }
  }

  lemma AheadAppend<F>(ts: seq<Task<F>>, added: seq<Task<F>>, c: nat, p: nat)
    requires c <= |ts| && p < |ts|
    ensures Ahead(ts + added, c, p) <= Ahead(ts, c, p) + 2 * |added|
  {
    var us := ts + added;
    if c <= p {
      assert us[c..p] == ts[c..p];
    } else {
      assert us[c..] == ts[c..] + added;
      assert us[..p] == ts[..p];
      CostsConcat(ts[c..], added);
      CostsBound(added);
    }
  }

  lemma AheadWrap<F>(ts: seq<Task<F>>, p: nat)
    requires p < |ts|
    ensures Ahead(ts, |ts|, p) == Ahead(ts, 0, p)
  {
    assert ts[|ts|..] == [];
    assert ts[0..p] == ts[..p];
  }

  /** The status of the task at the cursor changes. */
  lemma AheadUpdate<F>(ts: seq<Task<F>>, c: nat, p: nat, s: Status)
    requires c < |ts| && p < |ts| && c != p
    ensures Ahead(ts[c := ts[c].(status := s)], c, p) ==
      Ahead(ts, c, p) - Cost(ts[c]) + if s == Done then 1 else 2
  {
    var us := ts[c := ts[c].(status := s)];
    AheadNext(ts, c, p);
    AheadNext(us, c, p);
    if c < p {
      assert us[c + 1..p] == ts[c + 1..p];
    } else {
      assert us[c + 1..] == ts[c + 1..];
      assert us[..p] == ts[..p];
    }
  }

  lemma AheadBound<F>(ts: seq<Task<F>>, c: nat, p: nat)
    requires c <= |ts| && p < |ts|
    ensures Ahead(ts, c, p) <= 2 * (|ts| - 1)
  {
    if c <= p {
      CostsBound(ts[c..p]);
    } else {
      CostsBound(ts[c..]);
      CostsBound(ts[..p]);
    }
  }

  // ------------------------------------------------------- one step

  /** Task `t` is listed at `p` with status `s`, not blocked, and another task has the
      cursor's attention. */
  predicate PassedOver(w: World, t: TaskId, s: Status, p: nat) {
    && p < |w.loop.tasks| && w.loop.current <= |w.loop.tasks|
    && w.loop.tasks[p].id == t && w.loop.tasks[p].status == s && s != Wait
    && (w.phase.Idle? || w.loop.current != p)
  }

  /** The cycles still owed to others. A slice under way has used up one of its own. */
  function Owed(w: World, p: nat): int
    requires p < |w.loop.tasks| && w.loop.current <= |w.loop.tasks|
  {
    Ahead(w.loop.tasks, w.loop.current, p) - if w.phase.Idle? then 0 else 1
  }

  predicate Selects(w: World, t: TaskId) {
    AllListed(w.loop.tasks, w.loop.toWake) &&
    var l := Drained(w.loop); l.current < |l.tasks| && l.tasks[l.current].id == t
  }

  /** A cycle after which `t` has control. */
  predicate GivesControl(w: World, t: TaskId) {
    var u := DoCycle(w);
    u.phase.Busy? && u.loop.current < |u.loop.tasks| && Self(u).id == t
  }

  /** The drain keeps each task at its place. */
  lemma SelectedStays(w: World, t: TaskId, i: nat)
    requires Inv(w) && Allowed(w, Cycle) && Selects(w, t)
    requires i < |w.loop.tasks| && w.loop.tasks[i].id == t && w.loop.tasks[i].status == Exec
    ensures WakesOnlyWaiting(w) && Selecting(Drain(w)) && Self(Drain(w)).status == Exec && Self(Drain(w)).id == t
  {
    TokensNameWaiting(w);
    OrderDrain(w);
    AllAt(w);
    IdsIncrease(Drain(w));
    assert Drain(w).loop.tasks[i].id == t && Drain(w).loop.current == i;
  }

  /** A selected EXEC task is resumed. */
  lemma SelectedIsResumed(w: World, t: TaskId, i: nat)
    requires Inv(w) && Allowed(w, Cycle) && Selects(w, t)
    requires i < |w.loop.tasks| && w.loop.tasks[i].id == t && w.loop.tasks[i].status == Exec
    ensures GivesControl(w, t)
  {
    SelectedStays(w, t, i);
    assert DoCycle(w) == Resume(Drain(w));
  }

  lemma OwedLeaves(w: World, u: World, r: Status, t: TaskId, s: Status, p: nat)
    requires Leaves(w, u, r) && !w.phase.Idle? && Self(w).status == Exec && PassedOver(w, t, s, p)
    ensures PassedOver(u, t, s, p) && Owed(u, p) <= Owed(w, p)
  {
    AheadUpdate(w.loop.tasks, w.loop.current, p, r);
    if u.loop.current != w.loop.current {
      AheadNext(u.loop.tasks, w.loop.current, p);
    }
  }

  lemma OwedQuiet(w: World, u: World, t: TaskId, s: Status, p: nat)
    requires PassedOver(w, t, s, p) && Quiet(w, u)
    ensures PassedOver(u, t, s, p) && Owed(u, p) <= Owed(w, p)
  {
    AheadSame(w.loop.tasks, u.loop.tasks, w.loop.current, p);
  }

  lemma OwedInSlice(w: World, a: Act, t: TaskId, s: Status, p: nat)
    requires OrderInv(w) && Allowed(w, a) && !a.Cycle? && PassedOver(w, t, s, p)
    ensures PassedOver(Step(w, a), t, s, p) && Owed(Step(w, a), p) <= Owed(w, p)
  {
    if GivesBack(a) {
      GivingBackLeaves(w, a);
      OwedLeaves(w, Step(w, a), LeavingStatus(a), t, s, p);
    } else if !a.Spawn? {
      OthersAreQuiet(w, a);
      OwedQuiet(w, Step(w, a), t, s, p);
    }
  }

  lemma OwedDrain(w: World, t: TaskId, s: Status, p: nat)
    requires Inv(w) && Allowed(w, Cycle) && PassedOver(w, t, s, p)
    ensures WakesOnlyWaiting(w) && OrderInv(Drain(w)) && Selecting(Drain(w)) && PassedOver(Drain(w), t, s, p)
    ensures Owed(Drain(w), p) <= Owed(w, p) + 2 * |w.loop.toStart|
  {
    TokensNameWaiting(w);
    OrderDrain(w);
    AllAt(w);
    var l := ProcessSync(w.loop);
    assert forall i :: 0 <= i < |All(w)| ==> Drain(w).loop.tasks[i] == l.tasks[i];
    AheadSame(l.tasks, All(w), w.loop.current, p);
    AheadAppend(w.loop.tasks, w.loop.toStart, w.loop.current, p);
    if w.loop.current == |l.tasks| { AheadWrap(l.tasks, p); }
  }

  lemma OwedSelect(w: World, t: TaskId, s: Status, p: nat)
    requires Selecting(w) && PassedOver(w, t, s, p) && w.loop.current != p && Self(w).status != Done
    ensures PassedOver(Dispatch(w), t, s, p) && Owed(Dispatch(w), p) + 1 <= Owed(w, p)
  {
    AheadNext(w.loop.tasks, w.loop.current, p);
    if Self(w).status == Init {
      AheadUpdate(w.loop.tasks, w.loop.current, p, Exec);
    }
  }

  lemma OwedCleanUp(w: World, t: TaskId, s: Status, p: nat) returns (q: nat)
    requires Selecting(w) && PassedOver(w, t, s, p) && w.loop.current != p && Self(w).status == Done
    ensures PassedOver(CleanUp(w), t, s, q) && Owed(CleanUp(w), q) + 1 <= Owed(w, p)
  {
    var ts, c := w.loop.tasks, w.loop.current;
    AheadNext(ts, c, p);
    q := p;
    if !CleanUp(w).phase.Orphaned? {
      CleanUpErases(w);
      AheadErase(ts, c, p);
      q := if c < p then p - 1 else p;
      assert (ts[..c] + ts[c + 1..])[q] == ts[p];
    }
  }

  /** A cycle spent on another task brings `t` nearer by one, and moves it at most one place up. */
  lemma OwedDispatch(w: World, t: TaskId, s: Status, p: nat) returns (q: nat)
    requires Selecting(w) && PassedOver(w, t, s, p) && w.loop.current != p
    ensures PassedOver(Dispatch(w), t, s, q) && Owed(Dispatch(w), q) + 1 <= Owed(w, p)
  {
    if Self(w).status == Done {
      q := OwedCleanUp(w, t, s, p);
    } else {
      OwedSelect(w, t, s, p);
      q := p;
    }
  }

  lemma OwedNonNegative(w: World, t: TaskId, s: Status, p: nat)
    requires OrderInv(w) && PassedOver(w, t, s, p) && w.loop.current < |w.loop.tasks|
    ensures Owed(w, p) >= 0
  {
    if w.loop.current != p {
      AheadNext(w.loop.tasks, w.loop.current, p);
    }
  }

  // ------------------------------------------------------- runs

  function Cycles(acts: seq<Act>): nat {
    if acts == [] then 0 else (if acts[0].Cycle? then 1 else 0) + Cycles(acts[1..])
  }

  /** How many tasks the cycles of a run put into the list. */
  function Added(w: World, acts: seq<Act>): nat
    requires AllowedRun(w, acts)
    decreases |acts|
  {
    if acts == [] then 0
    else (if acts[0].Cycle? then |w.loop.toStart| else 0) + Added(Step(w, acts[0]), acts[1..])
  }

  /** The cursor is past the end only between cycles. */
  lemma OwedNeverNegative(w: World, t: TaskId, s: Status, p: nat)
    requires Inv(w) && PassedOver(w, t, s, p) && (w.phase.Idle? || w.loop.current < |w.loop.tasks|)
    ensures Owed(w, p) >= 0
  {
    if !w.phase.Idle? { OwedNonNegative(w, t, s, p); }
  }

  lemma OwedStep(w: World, a: Act, t: TaskId, s: Status, p: nat) returns (q: nat)
    requires Inv(w) && Allowed(w, a) && PassedOver(w, t, s, p) && !(a.Cycle? && Selects(w, t))
    ensures PassedOver(Step(w, a), t, s, q)
    ensures Owed(Step(w, a), q) + (if a.Cycle? then 1 else 0) <=
      Owed(w, p) + if a.Cycle? then 2 * |w.loop.toStart| else 0
  {
    if a.Cycle? {
      OwedDrain(w, t, s, p);
      q := OwedDispatch(Drain(w), t, s, p);
    } else {
      OwedInSlice(w, a, t, s, p);
      q := p;
    }
  }

  lemma DispatchAtTask(w: World)
    requires Selecting(w)
    ensures Dispatch(w).phase.Idle? || Dispatch(w).loop.current < |Dispatch(w).loop.tasks|
  {}

  lemma LeavingAtTask(w: World, u: World, s: Status)
    requires Leaves(w, u, s)
    ensures u.phase.Idle? || u.loop.current < |u.loop.tasks|
  {}

  lemma CycleAtTask(w: World)
    requires Inv(w) && Allowed(w, Cycle)
    ensures DoCycle(w).phase.Idle? || DoCycle(w).loop.current < |DoCycle(w).loop.tasks|
  {
    TokensNameWaiting(w);
    OrderDrain(w);
    DispatchAtTask(Drain(w));
  }

  /** Inside a slice, and after a failed run, the cursor is at a task. */
  lemma CursorAtTask(w: World, a: Act)
    requires Inv(w) && Allowed(w, a) && (w.phase.Idle? || w.loop.current < |w.loop.tasks|)
    ensures Step(w, a).phase.Idle? || Step(w, a).loop.current < |Step(w, a).loop.tasks|
  {
    if a.Cycle? {
      CycleAtTask(w);
    } else if GivesBack(a) {
      GivingBackLeaves(w, a);
      LeavingAtTask(w, Step(w, a), LeavingStatus(a));
    } else if !a.Spawn? {
      OthersAreQuiet(w, a);
    }
  }

  /** Some cycle of the run picks `t`. */
  predicate Served(w: World, acts: seq<Act>, t: TaskId)
    requires AllowedRun(w, acts)
    decreases |acts|
  {
    acts != [] && ((acts[0].Cycle? && Selects(w, t)) || Served(Step(w, acts[0]), acts[1..], t))
  }

  lemma {:induction false} CyclesAreOwed(w: World, acts: seq<Act>, t: TaskId, s: Status, p: nat)
    requires Inv(w) && AllowedRun(w, acts) && PassedOver(w, t, s, p) && !Served(w, acts, t)
    requires w.phase.Idle? || w.loop.current < |w.loop.tasks|
    ensures Cycles(acts) <= Owed(w, p) + 2 * Added(w, acts)
    decreases |acts|
  {
    if acts == [] {
      OwedNeverNegative(w, t, s, p);
    } else {
      StepKeepsInv(w, acts[0]);
      CursorAtTask(w, acts[0]);
      var q := OwedStep(w, acts[0], t, s, p);
      CyclesAreOwed(Step(w, acts[0]), acts[1..], t, s, q);
    }
  }

  /** A listed task that is not blocked is picked within `2 * (n - 1 + m) + 1` cycles, `n` being
      the tasks listed now and `m` those listed meanwhile. */
  lemma ServedInTime(w: World, acts: seq<Act>, t: TaskId, p: nat)
    requires Inv(w) && AllowedRun(w, acts) && w.phase.Idle?
    requires p < |w.loop.tasks| && w.loop.tasks[p].id == t && w.loop.tasks[p].status != Wait
    requires Cycles(acts) >= 2 * (|w.loop.tasks| - 1 + Added(w, acts)) + 1
    ensures Served(w, acts, t)
  {
    AheadBound(w.loop.tasks, w.loop.current, p);
    if !Served(w, acts, t) {
      CyclesAreOwed(w, acts, t, w.loop.tasks[p].status, p);
    }
  }

  predicate GetsControl(w: World, acts: seq<Act>, t: TaskId)
    requires AllowedRun(w, acts)
    decreases |acts|
  {
    acts != [] && ((acts[0].Cycle? && GivesControl(w, t)) || GetsControl(Step(w, acts[0]), acts[1..], t))
  }

  /** A task that is passed over stays as it is, so it is EXEC still when it is picked. */
  lemma {:induction false} ServedGetsControl(w: World, acts: seq<Act>, t: TaskId, p: nat)
    requires Inv(w) && AllowedRun(w, acts) && PassedOver(w, t, Exec, p) && Served(w, acts, t)
    ensures GetsControl(w, acts, t)
    decreases |acts|
  {
    if acts[0].Cycle? && Selects(w, t) {
      SelectedIsResumed(w, t, p);
    } else {
      StepKeepsInv(w, acts[0]);
      var q := OwedStep(w, acts[0], t, Exec, p);
      ServedGetsControl(Step(w, acts[0]), acts[1..], t, q);
    }
  }

  lemma CursorBound(w: World)
    requires OrderInv(w)
    ensures w.loop.current <= |w.loop.tasks|
  {}

  /** In every run: whenever a task is EXEC between two cycles, it has control again within
      `2 * (n - 1 + m) + 1` cycles, whatever the other tasks and foreign threads do. */
  lemma ResumedInTime(w0: World, before: seq<Act>, acts: seq<Act>, p: nat)
    requires Initial(w0) && AllowedRun(w0, before) && AllowedRun(Run(w0, before), acts)
    ensures var w := Run(w0, before);
      w.phase.Idle? && p < |w.loop.tasks| && w.loop.tasks[p].status == Exec &&
      Cycles(acts) >= 2 * (|w.loop.tasks| - 1 + Added(w, acts)) + 1 ==>
        GetsControl(w, acts, w.loop.tasks[p].id)
  {
    var w := Run(w0, before);
    Reachable(w0, before);
    CursorBound(w);
    if w.phase.Idle? && p < |w.loop.tasks| && w.loop.tasks[p].status == Exec &&
       Cycles(acts) >= 2 * (|w.loop.tasks| - 1 + Added(w, acts)) + 1
    {
      ServedInTime(w, acts, w.loop.tasks[p].id, p);
      ServedGetsControl(w, acts, w.loop.tasks[p].id, p);
    }
  }
}
