/** What spawn-tree programs compute: every worker of the tree runs its own program, spawns the
    children its program names, in order, and its future gets the value its program returns. */
module Answers {
  import opened LoopModel
  import opened FutureModel
  import opened Machine
  import opened Order
  import opened Futures
  import opened Runs
  import opened Ownership
  import opened Cycles
  import opened Results
  import opened Programs

  function ReturnValue(p: Prog): Value {
    match p
    case Ret(v) => v
    case Fork(_, q) => ReturnValue(q)
    case Join(_, q) => ReturnValue(q)
    case Pause(q) => ReturnValue(q)
  }

  /** The programs a worker spawns, in order. */
  function Children(p: Prog): seq<Prog> {
    match p
    case Ret(_) => []
    case Fork(c, q) => [c] + Children(q)
    case Join(_, q) => Children(q)
    case Pause(q) => Children(q)
  }

  /** The task of future `f` runs `p`. */
  predicate ChildRuns(s: State, f: FutureId, p: Prog) {
    f < |s.w.futures| && Owner(s.w, f) in s.prog && s.prog[Owner(s.w, f)] == p
  }

  /** So far `t` has spawned the first of its program's children, and each runs the program it
      was made with; the rest of the program names the others and the value. */
  ghost predicate RunsItsProgram(s: State, t: TaskId) {
    Spawned(s.w, t) ==>
      && t in s.prog && t in s.rest && t in s.kids
      && ReturnValue(s.rest[t]) == ReturnValue(s.prog[t])
      && |s.kids[t]| <= |Children(s.prog[t])|
      && Children(s.prog[t])[|s.kids[t]|..] == Children(s.rest[t])
      && (forall i :: 0 <= i < |s.kids[t]| ==> ChildRuns(s, s.kids[t][i], Children(s.prog[t])[i]))
  }

  /** Every task but main is a child of an older one. */
  predicate HasParent(s: State, t: TaskId) {
    Spawned(s.w, t) && t != s.w.hist.base ==>
      t in s.parent && s.parent[t] in s.kids && s.parent[t] < t && (t - s.w.hist.base - 1) in s.kids[s.parent[t]]
  }

  /** A task that has ended has done all of its program, and its future holds the value. */
  predicate HoldsItsValue(s: State, t: TaskId) {
    t in s.w.hist.ended ==>
      && t in s.rest && s.rest[t].Ret?
      && (t != s.w.hist.base ==>
           && 0 <= t - s.w.hist.base - 1 < |s.w.futures| && s.w.futures[t - s.w.hist.base - 1].completed
           && s.w.futures[t - s.w.hist.base - 1].value == s.rest[t].value)
  }

  predicate MainRuns(s: State, main: Prog) {
    s.w.hist.base in s.prog && s.prog[s.w.hist.base] == main
  }

  ghost predicate AnswerInv(s: State, main: Prog) {
    && MainRuns(s, main)
    && (forall t :: RunsItsProgram(s, t))
    && (forall t :: HasParent(s, t))
    && (forall t :: HoldsItsValue(s, t))
  }

  lemma AnswersBegin(main: Prog, base: TaskId, keepGoing: bool)
    ensures AnswerInv(Begin(main, base, keepGoing), main)
  {}

  // ------------------------------------------------------- what each step keeps

  lemma RunsFork(s: State, t: TaskId)
    requires Numbered(s.w) && s.w.phase.Busy? && CanStep(s) && s.rest[Self(s.w).id].Fork?
    requires RunsItsProgram(s, t) && PlaceOk(s, t)
    requires Spawned(s.w, Self(s.w).id)
    ensures RunsItsProgram(Next(s), t)
  {
    var n, me, id := Next(s), Self(s.w).id, s.w.loop.nextId;
    assert n.w.loop.nextId == id + 1 && n.w.hist.base == s.w.hist.base && |n.w.futures| == |s.w.futures| + 1;
    if t == id {
      assert n.kids[t] == [];
    } else if t == me {
      assert n.kids[t] == s.kids[t] + [|s.w.futures|];
      assert Owner(n.w, |s.w.futures|) == id;
    }
  }

  lemma RunsMoved(s: State, u: World, t: TaskId)
    requires AtInstr(s) && RunsItsProgram(s, t) && !s.rest[Self(s.w).id].Fork? && SameCounts(s.w, u)
    ensures RunsItsProgram(Advanced(s, Self(s.w).id).(w := u), t)
  {}

  lemma RunsNext(s: State, t: TaskId)
    requires StructInv(s) && CanStep(s) && RunsItsProgram(s, t)
    ensures RunsItsProgram(Next(s), t)
  {
    if s.w.phase.Idle? {
      BoundDrain(s.w);
      DispatchKeepsCounts(Drain(s.w));
    } else {
      ExecutingHasNotEnded(s.w);
      assert PlaceOk(s, t) && PlaceOk(s, Self(s.w).id);
      if s.rest[Self(s.w).id].Fork? {
        RunsFork(s, t);
      } else {
        NextIs(s);
        SliceKeepsCounts(s.w, NextAct(s));
        RunsMoved(s, Step(s.w, NextAct(s)), t);
      }
    }
  }

  lemma ParentsFork(s: State, t: TaskId)
    requires Numbered(s.w) && s.w.phase.Busy? && CanStep(s) && s.rest[Self(s.w).id].Fork?
    requires HasParent(s, t) && Spawned(s.w, Self(s.w).id)
    ensures HasParent(Next(s), t)
  {
    var n, me := Next(s), Self(s.w).id;
    assert n.w.loop.nextId == s.w.loop.nextId + 1 && n.w.hist.base == s.w.hist.base;
    assert n.kids[me] == s.kids[me] + [|s.w.futures|];
  }

  lemma ParentsMoved(s: State, u: World, t: TaskId)
    requires AtInstr(s) && HasParent(s, t) && !s.rest[Self(s.w).id].Fork? && SameCounts(s.w, u)
    ensures HasParent(Advanced(s, Self(s.w).id).(w := u), t)
  {}

  lemma ParentsNext(s: State, t: TaskId)
    requires StructInv(s) && CanStep(s) && HasParent(s, t)
    ensures HasParent(Next(s), t)
  {
    if s.w.phase.Idle? {
      BoundDrain(s.w);
      DispatchKeepsCounts(Drain(s.w));
    } else {
      ExecutingHasNotEnded(s.w);
      if s.rest[Self(s.w).id].Fork? {
        ParentsFork(s, t);
      } else {
        NextIs(s);
        SliceKeepsCounts(s.w, NextAct(s));
        ParentsMoved(s, Step(s.w, NextAct(s)), t);
      }
    }
  }

  /** A task that had ended keeps its place, and its future keeps its value. */
  lemma ValueStays(s: State, n: State, t: TaskId)
    requires HoldsItsValue(s, t) && t in s.w.hist.ended
    requires KeepsResolved(s.w, n.w) && n.w.hist.base == s.w.hist.base
    requires t in n.rest && n.rest[t] == s.rest[t]
    ensures HoldsItsValue(n, t)
  {}

  lemma ValuesCycle(s: State, t: TaskId)
    requires StructInv(s) && CanStep(s) && s.w.phase.Idle? && HoldsItsValue(s, t)
    ensures HoldsItsValue(Next(s), t)
  {
    CycleEndsNothing(s.w);
    StepKeepsResolved(s.w, Cycle);
    StepKeepsBase(s.w, Cycle);
    if t in s.w.hist.ended { ValueStays(s, Next(s), t); }
  }

  /** Only the current task's saved position changes, and that of a new task is added. */
  lemma AdvancedElsewhere(s: State, t: TaskId)
    requires s.w.phase.Busy? && CanStep(s) && t in s.rest && t != Self(s.w).id && t < s.w.loop.nextId
    ensures t in Next(s).rest && Next(s).rest[t] == s.rest[t]
  {
    NextIs(s);
  }

  lemma ReturnedNow(s: State)
    requires StructInv(s) && CanStep(s) && s.w.phase.Busy? && s.rest[Self(s.w).id].Ret?
    ensures HoldsItsValue(Next(s), Self(s.w).id)
  {
    var t := Self(s.w).id;
    var v := s.rest[t].value;
    NextIs(s);
    ExecutingHasNotEnded(s.w);
    if t != s.w.hist.base { CompletesWithValue(s.w, v, t, t - s.w.hist.base - 1); }
  }

  lemma ValuesSlice(s: State, t: TaskId)
    requires StructInv(s) && CanStep(s) && s.w.phase.Busy? && HoldsItsValue(s, t)
    ensures HoldsItsValue(Next(s), t)
  {
    var a := NextAct(s);
    NextIs(s);
    EndsAfter(s.w, a);
    ExecutingHasNotEnded(s.w);
    if t in s.w.hist.ended {
      StepKeepsResolved(s.w, a);
      StepKeepsBase(s.w, a);
      AdvancedElsewhere(s, t);
      ValueStays(s, Next(s), t);
    } else if a.Return? && t == Self(s.w).id {
      ReturnedNow(s);
    }
  }

  lemma MainStays(s: State, main: Prog)
    requires StructInv(s) && CanStep(s) && MainRuns(s, main)
    ensures MainRuns(Next(s), main)
  {
    StepKeepsBase(s.w, ActOf(s));
    if s.w.phase.Busy? { ExecutingHasNotEnded(s.w); }
  }

  lemma AnswerNext(s: State, main: Prog)
    requires StructInv(s) && AnswerInv(s, main) && CanStep(s)
    ensures AnswerInv(Next(s), main)
  {
    MainStays(s, main);
    forall t ensures RunsItsProgram(Next(s), t) && HasParent(Next(s), t) && HoldsItsValue(Next(s), t) {
      RunsNext(s, t);
      ParentsNext(s, t);
      if s.w.phase.Idle? { ValuesCycle(s, t); } else { ValuesSlice(s, t); }
    }
  }

  // ------------------------------------------------------- when everything has ended

  /** Worker `t` has spawned all the children of its program, in order, each of which runs its own
      program; and it is itself a child of an older worker, unless it is main. */
  ghost predicate InTree(s: State, t: TaskId) {
    && t in s.prog && t in s.kids && |s.kids[t]| == |Children(s.prog[t])|
    && (forall i :: 0 <= i < |s.kids[t]| ==> ChildRuns(s, s.kids[t][i], Children(s.prog[t])[i]))
    && (t != s.w.hist.base ==>
         t in s.parent && s.parent[t] in s.kids && s.parent[t] < t && (t - s.w.hist.base - 1) in s.kids[s.parent[t]])
  }

  /** The future holds what the program of its task returns. */
  predicate Holds(s: State, f: FutureId) {
    f < |s.w.futures| && s.w.futures[f].completed && !s.w.futures[f].cancelled &&
    Owner(s.w, f) in s.prog && s.w.futures[f].value == ReturnValue(s.prog[Owner(s.w, f)])
  }

  /** Main runs `main`, every worker has spawned its children, every future but main's, who has none,
      holds its program's value, and every `await` got it. */
  ghost predicate Computed(s: State, main: Prog) {
    && MainRuns(s, main)
    && |s.w.futures| == s.w.loop.nextId - s.w.hist.base - 1
    && (forall t :: s.w.hist.base <= t < s.w.loop.nextId ==> InTree(s, t))
    && (forall f :: 0 <= f < |s.w.futures| ==> Holds(s, f))
    && (forall r :: r in s.w.hist.awaits ==> Holds(s, r.future) && r.outcome == Returned(s.w.futures[r.future].value))
  }

  lemma NothingListedAllEnded(w: World, t: TaskId)
    requires OrderInv(w) && EndInv(w) && All(w) == [] && Spawned(w, t)
    ensures t in w.hist.ended
  {
    if t !in w.hist.ended {
      var i := NotEndedIsListed(w, t);
    }
  }

  lemma EndedInTree(s: State, t: TaskId)
    requires RunsItsProgram(s, t) && HasParent(s, t) && HoldsItsValue(s, t) && Spawned(s.w, t) && t in s.w.hist.ended
    ensures InTree(s, t)
  {
    assert Children(s.rest[t]) == [];
  }

  lemma EndedHolds(s: State, f: FutureId)
    requires FutureOk(s.w, f) && f < |s.w.futures| && Spawned(s.w, Owner(s.w, f)) && Owner(s.w, f) in s.w.hist.ended
    requires RunsItsProgram(s, Owner(s.w, f)) && HoldsItsValue(s, Owner(s.w, f))
    ensures Holds(s, f)
  {}

  /** A loop that stopped has computed all there was to compute. */
  lemma StoppedHasComputed(s: State, main: Prog)
    requires StructInv(s) && AnswerInv(s, main) && All(s.w) == []
    ensures Computed(s, main)
  {
    forall t | s.w.hist.base <= t < s.w.loop.nextId ensures InTree(s, t) {
      NothingListedAllEnded(s.w, t);
      EndedInTree(s, t);
    }
    forall f | 0 <= f < |s.w.futures| ensures Holds(s, f) {
      assert FutureOk(s.w, f);
      NothingListedAllEnded(s.w, Owner(s.w, f));
      EndedHolds(s, f);
    }
    forall r | r in s.w.hist.awaits
      ensures Holds(s, r.future) && r.outcome == Returned(s.w.futures[r.future].value)
    {
      var k :| 0 <= k < |s.w.hist.awaits| && s.w.hist.awaits[k] == r;
      assert RecordOk(s.w, s.w.hist.awaits[k]) && Holds(s, r.future);
    }
  }
}
