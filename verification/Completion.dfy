/** `run` of a structured program: the loop is left, and how. */
module Completion {
  import opened LoopModel
  import opened Machine
  import opened Order
  import opened Runs
  import opened Programs
  import opened Answers
  import opened Termination
  import opened Joining

  /** World `u` is the end of a run from `w` that breaks none of the callers' rules. */
  ghost predicate Reaches(w: World, u: World) {
    exists acts :: AllowedRun(w, acts) && Run(w, acts) == u
  }

  lemma ReachesNext(w: World, s: State)
    requires Reaches(w, s.w) && CanStep(s)
    ensures Reaches(w, Next(s).w)
  {
    var acts :| AllowedRun(w, acts) && Run(w, acts) == s.w;
    RunOne(s.w, ActOf(s));
    RunConcat(w, acts, [ActOf(s)]);
  }

  lemma SliceDoesNotOrphan(s: State)
    requires s.w.phase.Busy? && CanStep(s)
    ensures !Next(s).w.phase.Orphaned?
  {}

  /** Nothing is left over, and every task was deleted once. */
  ghost predicate Quiescent(w: World) {
    && w.loop.tasks == [] && w.loop.toStart == [] && w.loop.toWake == []
    && w.hist.base <= w.loop.nextId
    && multiset(w.hist.deleted) == multiset(Range(w.hist.base, w.loop.nextId - w.hist.base))
  }

  lemma StoppedIsQuiescent(s: State, main: Prog)
    requires StructInv(s) && AnswerInv(s, main) && !s.w.loop.running
    ensures Quiescent(s.w) && Computed(s, main)
  {
    StoppedIsQuiet(s.w);
    assert All(s.w) == [];
    StoppedHasComputed(s, main);
  }

  /** One turn: the invariants survive and the measure falls. */
  lemma OneStep(w: World, s: State, main: Prog, joined: bool)
    requires Reaches(w, s.w) && StructInv(s) && AnswerInv(s, main) && !Halted(s) && (joined ==> JoinInv(s))
    ensures CanStep(s) && StructInv(Next(s)) && AnswerInv(Next(s), main) && Reaches(w, Next(s).w)
    ensures joined ==> JoinInv(Next(s)) && !Next(s).w.phase.Orphaned?
    ensures Next(s).w.phase.Orphaned? || Decreases(s, Next(s))
  {
    NeverStuck(s);
    StructNext(s);
    AnswerNext(s, main);
    ReachesNext(w, s);
    EveryStepDecreases(s);
    if joined {
      JoinNext(s);
      if s.w.phase.Idle? { NeverOrphaned(s); } else { SliceDoesNotOrphan(s); }
    }
  }

  /** Every structured program leaves the loop. If all workers join their children it leaves
      it by stopping, with nothing left over, every task deleted once, and every worker of the tree
      run: each future holds what its program returns, and each `await` got that. Otherwise it may
      instead leave the loop with `MainTaskExitedException`. */
  method RunUntilCompleted(main: Prog, base: TaskId, keepGoing: bool) returns (s: State)
    requires base >= 0 && WellFormed(main, 0)
    ensures Initial(Begin(main, base, keepGoing).w) && Reaches(Begin(main, base, keepGoing).w, s.w)
    ensures s.w.phase.Orphaned? || !s.w.loop.running
    ensures !s.w.loop.running ==> Quiescent(s.w) && Computed(s, main)
    ensures JoinsAll(main, 0) ==> !s.w.phase.Orphaned? && !s.w.loop.running
  {
    s := Begin(main, base, keepGoing);
    ghost var w := s.w;
    ghost var joined := JoinsAll(main, 0);
    StructBegins(main, base, keepGoing);
    AnswersBegin(main, base, keepGoing);
    if joined { JoinBegins(main, base, keepGoing); }
    assert AllowedRun(w, []) && Run(w, []) == w;
    while s.w.loop.running && !s.w.phase.Orphaned?
      invariant StructInv(s) && AnswerInv(s, main) && Reaches(w, s.w)
      invariant joined ==> JoinInv(s) && !s.w.phase.Orphaned?
      decreases if s.w.phase.Orphaned? then 0 else 1, Load(All(s.w), s.rest), Rank(s.w)
    {
      OneStep(w, s, main, joined);
      s := Next(s);
    }
    if !s.w.loop.running { StoppedIsQuiescent(s, main); }
  }
}
