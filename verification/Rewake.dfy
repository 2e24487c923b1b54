/** Where the loop does not stop clean: `cleanUpTask` tests only whether the bound future
    is completed, so a future that was cancelled before is cancelled, and its waiters are
    notified, a second time. Nothing is assumed here but what the code tests. */
module Rewake {
  import opened Options
  import opened LoopModel
  import opened FutureModel
  import opened Machine
  import opened Order
  import opened WakeTokens
  import opened Futures
  import opened Runs
  import opened Rules

  // ------------------------------------------------------- stopping, and running again

  lemma CleanUpWakes(w: World)
    requires w.phase.Idle? && w.loop.current < |w.loop.tasks| && Cancels(w) && !CleanUp(w).phase.Orphaned?
    ensures CleanUp(w).loop.toWake == w.loop.toWake + w.futures[Self(w).result.value].waiters
  {}

  lemma CancellingAgainLeaves(w: World)
    requires OrderInv(w) && TokenInv(w) && w.phase.Idle? && w.loop.running && CancelsAgain(w)
    ensures DoCycle(w).loop.toWake != []
  {
    DrainKeepsTokens(w);
    CleanUpWakes(Drain(w));
  }

  lemma StoppingLeaves(w: World)
    requires OrderInv(w) && TokenInv(w) && w.phase.Idle? && w.loop.running && !DoCycle(w).loop.running
    ensures DoCycle(w).loop.toWake == [] <==> !CancelsAgain(w)
  {
    CycleKeepsTokens(w);
    if CancelsAgain(w) {
      CancellingAgainLeaves(w);
    } else {
      var u := DoCycle(w);
      assert All(u) == [];
      NothingBlockedNothingWaits(u);
    }
  }

  /** Over every run of the machine's steps that the code lets through and that broke no rule before:
      the cycle that stops the loop leaves an empty wake list unless it cancels a future again,
      and then it leaves ids of deleted tasks there. */
  lemma StopsQuiescentUnlessCancelledAgain(w0: World, acts: seq<Act>)
    requires Initial(w0) && PermittedRun(w0, acts) && BreaksNoRule(w0, acts)
    ensures var w := Moves(w0, acts);
      w.phase.Idle? && w.loop.running && !DoCycle(w).loop.running ==>
        (DoCycle(w).loop.toWake == [] <==> !CancelsAgain(w))
  {
    OrderInitially(w0);
    TokensInitially(w0);
    TokensSurviveFrom(w0, acts);
    var w := Moves(w0, acts);
    if w.phase.Idle? && w.loop.running && !DoCycle(w).loop.running {
      StoppingLeaves(w);
    }
  }

  /** `run` on a loop that was cleared: a fresh main task, and whatever the wake list held. */
  function Rerun(w: World): World {
    var l := AddTask(Clear(w.loop), None);
    var h := w.hist.(base := w.loop.nextId, started := [], ended := map[], deleted := []);
    w.(loop := l.(mainId := w.loop.nextId), phase := Idle, wrapped := map[], position := map[], hist := h)
  }

  /** After a loop that stopped in a run that kept the rules, `run` starts like the first one: with
      the futures of all earlier runs, what was done to them, and nothing else. */
  lemma StoppedRunCanBeRerun(w: World, acts: seq<Act>)
    requires Initial(w) && AllowedRun(w, acts) && !Run(w, acts).loop.running
    ensures Initial(Rerun(Run(w, acts)))
  {
    Reachable(w, acts);
    StopsQuiescent(w, acts);
    var u := Run(w, acts);
    var v := Rerun(u);
    forall f: FutureId ensures FlagsOk(v, f) { assert FlagsOk(u, f); }
    forall k | 0 <= k < |v.hist.awaits| ensures RecordOk(v, v.hist.awaits[k]) { assert RecordOk(u, u.hist.awaits[k]); }
  }

  /** The next `run` then dereferences a null task in its first cycle. */
  lemma RerunCrashesIffIdsAreLeft(w: World)
    requires w.loop.toStart == []
    ensures DoCycle(Rerun(w)).phase.Crashed? <==> w.loop.toWake != []
  {
    var l := Rerun(w).loop;
    assert l.tasks == [] && l.toWake == w.loop.toWake;
    if l.toWake != [] {
      assert !Listed(l.tasks, l.toWake[0]);
    } else {
      assert AllListed(l.tasks, l.toWake);
      assert Drained(l).tasks == l.toStart;
    }
  }

  /** The first `run`: any id to begin with, and any number of events and of other threads. */
  function FirstWorld(base: nat, keepGoing: bool, events: nat, threads: nat): World {
    World(Launch(base), Idle, keepGoing, [], seq(events, _ => []), seq(threads, _ => Hand(0, [])), [], map[], map[],
          History(base, [], map[], [], [], [], []))
  }

  lemma FirstIsInitial(base: nat, keepGoing: bool, events: nat, threads: nat)
    ensures Initial(FirstWorld(base, keepGoing, events, threads))
  {}

  function FreshWorld(): World {
    World(Launch(0), Idle, true, [], [], [], [], map[], map[], History(0, [], map[], [], [], [], []))
  }

  /** `run<T>(task)` where the task exits, with ASYNC_CONTINUE_ON_TASK_EXC: main binds its
      child's future to itself and awaits it, the child exits, main's `await` throws. */
  function ExitingRun(): seq<Act> {
    [Cycle, Spawn(true), Bind(0), AwaitBlock(0)] +   // main starts and awaits its child
    [Cycle, Exit] +                                  // the child starts and exits
    [Cycle, Cycle] +                                 // main is skipped, the child deleted
    [Cycle, Throw]                                   // main is woken; CancelledException ends it
  }

  lemma RunPair(w: World, a: Act, b: Act)
    requires Allowed(w, a) && Allowed(Step(w, a), b)
    ensures AllowedRun(w, [a, b]) && Run(w, [a, b]) == Step(Step(w, a), b)
  {
    RunOne(w, a);
    RunOne(Step(w, a), b);
    RunConcat(w, [a], [b]);
    assert [a] + [b] == [a, b];
  }

  lemma MainSpawns() returns (u: World)
    ensures AllowedRun(FreshWorld(), [Cycle, Spawn(true)]) && u == Run(FreshWorld(), [Cycle, Spawn(true)])
    ensures u.phase == Busy && u.keepGoing && u.futures == [FRESH]
    ensures u.loop == Loop([Task(0, Exec, None)], 0, true, [], [Task(1, Init, Some(0))], 2, 0)
  {
    var w := DoCycle(FreshWorld());
    assert w.loop == Loop([Task(0, Exec, None)], 0, true, [], [], 1, 0);
    RunPair(FreshWorld(), Cycle, Spawn(true));
    u := Step(w, Spawn(true));
  }

  lemma MainBlocks(w: World)
    requires w.phase == Busy && w.futures == [FRESH]
    requires w.loop == Loop([Task(0, Exec, None)], 0, true, [], [Task(1, Init, Some(0))], 2, 0)
    ensures AllowedRun(w, [Bind(0), AwaitBlock(0)])
    ensures var u := Run(w, [Bind(0), AwaitBlock(0)]);
      && u.phase == Idle && u.keepGoing == w.keepGoing && u.futures == [Future(false, false, [0], 0)]
      && u.loop == Loop([Task(0, Wait, Some(0))], 1, true, [], [Task(1, Init, Some(0))], 2, 0)
  {
    var v := Step(w, Bind(0));
    assert FRESH.waiters + [Self(v).id] == [0];
    assert Step(v, AwaitBlock(0)).futures[0] == Future(false, false, [0], 0);
    RunPair(w, Bind(0), AwaitBlock(0));
  }

  lemma MainAwaits() returns (u: World)
    ensures AllowedRun(FreshWorld(), [Cycle, Spawn(true), Bind(0), AwaitBlock(0)])
    ensures u == Run(FreshWorld(), [Cycle, Spawn(true), Bind(0), AwaitBlock(0)])
    ensures u.phase == Idle && u.keepGoing && u.futures == [Future(false, false, [0], 0)]
    ensures u.loop == Loop([Task(0, Wait, Some(0))], 1, true, [], [Task(1, Init, Some(0))], 2, 0)
  {
    var w := MainSpawns();
    MainBlocks(w);
    RunConcat(FreshWorld(), [Cycle, Spawn(true)], [Bind(0), AwaitBlock(0)]);
    assert [Cycle, Spawn(true)] + [Bind(0), AwaitBlock(0)] == [Cycle, Spawn(true), Bind(0), AwaitBlock(0)];
    u := Run(w, [Bind(0), AwaitBlock(0)]);
  }

  lemma ChildExits(w: World)
    requires w.phase == Idle && w.futures == [Future(false, false, [0], 0)]
    requires w.loop == Loop([Task(0, Wait, Some(0))], 1, true, [], [Task(1, Init, Some(0))], 2, 0)
    ensures AllowedRun(w, [Cycle, Exit])
    ensures var u := Run(w, [Cycle, Exit]);
      && u.phase == Idle && u.keepGoing == w.keepGoing && u.futures == w.futures
      && u.loop == Loop([Task(0, Wait, Some(0)), Task(1, Done, Some(0))], 2, true, [], [], 2, 0)
  {
    var v := DoCycle(w);
    assert v.loop == Loop([Task(0, Wait, Some(0)), Task(1, Exec, Some(0))], 1, true, [], [], 2, 0);
    RunPair(w, Cycle, Exit);
  }

  lemma ChildIsDeleted(w: World)
    requires w.phase == Idle && w.futures == [Future(false, false, [0], 0)]
    requires w.loop == Loop([Task(0, Wait, Some(0)), Task(1, Done, Some(0))], 2, true, [], [], 2, 0)
    ensures AllowedRun(w, [Cycle, Cycle])
    ensures var u := Run(w, [Cycle, Cycle]);
      && u.phase == Idle && u.keepGoing == w.keepGoing && u.futures == [Future(false, true, [0], 0)]
      && u.loop == Loop([Task(0, Wait, Some(0))], 1, true, [0], [], 2, 0)
  {
    assert w.loop.tasks + [] == w.loop.tasks;
    var v := DoCycle(w);
    assert v.loop == Loop(w.loop.tasks, 1, true, [], [], 2, 0);
    assert Drained(v.loop) == v.loop;
    assert CleansUpOnce(v);
    var u := DoCycle(v);
    assert u.loop.tasks == [Task(0, Wait, Some(0))];
    RunPair(w, Cycle, Cycle);
  }

  lemma MainThrows(w: World)
    requires w.phase == Idle && w.keepGoing && w.futures == [Future(false, true, [0], 0)]
    requires w.loop == Loop([Task(0, Wait, Some(0))], 1, true, [0], [], 2, 0)
    ensures AllowedRun(w, [Cycle, Throw])
    ensures var u := Run(w, [Cycle, Throw]);
      && u.phase == Idle && u.futures == w.futures
      && u.loop == Loop([Task(0, Done, Some(0))], 0, true, [], [], 2, 0)
  {
    assert w.loop.tasks[0].id == 0;
    assert Listed(w.loop.tasks, 0);
    WakeAllAt(w.loop.tasks, w.loop.toWake, 0);
    assert WakeAll(w.loop.tasks, w.loop.toWake) + [] == [Task(0, Exec, Some(0))];
    RunPair(w, Cycle, Throw);
  }

  lemma MainIsDeleted(w: World)
    requires w.phase == Idle && w.loop == Loop([Task(0, Done, Some(0))], 0, true, [], [], 2, 0)
    requires w.futures == [Future(false, true, [0], 0)]
    ensures !DoCycle(w).loop.running && DoCycle(w).loop.toWake == [0]
    ensures DoCycle(Rerun(DoCycle(w))).phase.Crashed?
  {
    assert Drained(w.loop).tasks == w.loop.tasks;
    var u := DoCycle(w);
    assert u.loop == Loop([], 0, false, [0], [], 2, 0);
    RerunCrashesIffIdsAreLeft(u);
  }

  /** That run breaks no rule, yet the cycle that ends it leaves the id of a deleted task to
      wake, and the next `run` dereferences a null task. */
  lemma ExitingRunIsNotQuiescent()
    ensures Initial(FreshWorld()) && AllowedRun(FreshWorld(), ExitingRun())
    ensures var u := DoCycle(Run(FreshWorld(), ExitingRun()));
      !u.loop.running && u.loop.toWake == [0] && DoCycle(Rerun(u)).phase.Crashed?
  {
    FirstIsInitial(0, true, 0, 0);
    var w0 := FreshWorld();
    assert w0 == FirstWorld(0, true, 0, 0);
    var a, b, c, d := [Cycle, Spawn(true), Bind(0), AwaitBlock(0)], [Cycle, Exit], [Cycle, Cycle], [Cycle, Throw];
    var u := MainAwaits();
    ChildExits(u);
    ChildIsDeleted(Run(u, b));
    MainThrows(Run(Run(u, b), c));
    MainIsDeleted(Run(Run(Run(u, b), c), d));
    RunConcat(w0, a, b);
    RunConcat(w0, a + b, c);
    RunConcat(w0, a + b + c, d);
  }
}
