/** What tasks block on: futures and events, as objects on top of the loop. `wait()` gives
    control away in the middle of `await`, so `await` is two methods, before and after. */
module Primitives {
  import opened Options
  import L = LoopModel
  import M = FutureModel
  import opened Runtime

  class Future<T> {
    const state: FutureState
    var result: T

    ghost function View(): M.Future<T>
      reads this, state
    {
      M.Future(state.completed, state.cancelled, state.waiters, result)
    }

    constructor (default: T)
      ensures fresh(state) && View() == M.Future(false, false, [], default)
    {
      state := new FutureState();
      result := default;
    }

    /** Cancellation is reported first, even when there is a value. */
    method Get() returns (o: M.Outcome<T>)
      ensures o.ThrewCancelled? <==> state.cancelled
      ensures o.ThrewNotReady? <==> !state.cancelled && !state.completed
      ensures if state.completed && !state.cancelled then o == M.Returned(result) else !o.Returned?
      ensures o == M.GetOutcome(View())
    {
      if state.cancelled { return M.ThrewCancelled; }
      if !state.completed { return M.ThrewNotReady; }
      return M.Returned(result);
    }

    method Complete(v: T, loop: EventLoop)
      modifies this`result, state`completed, loop`toWake
      ensures result == v && state.completed
      ensures View() == M.AfterComplete(old(View()), v)
      ensures loop.toWake == old(loop.toWake) + old(View()).waiters
    {
      result := v;
      state.Complete(loop);
    }

    method Cancel(loop: EventLoop)
      modifies state`cancelled, loop`toWake
      ensures state.cancelled && View() == M.AfterCancel(old(View()))
      ensures loop.toWake == old(loop.toWake) + old(View()).waiters
    {
      state.Cancel(loop);
    }

    /** `await` up to `wait()`: an answer if the future is completed; otherwise the current
        task is registered, blocked, and has given control back. A cancelled future that was
        not completed is waited for. */
    method AwaitEnter(loop: EventLoop) returns (o: Option<M.Outcome<T>>)
      requires loop.Valid() && loop.current < |loop.tasks|
      modifies state`waiters, loop`current, loop.tasks[loop.current]
      ensures loop.Valid()
      ensures o.Some? <==> state.completed
      ensures o.Some? ==> unchanged(loop) && unchanged(old(loop.tasks[loop.current])) && loop.View() == old(loop.View())
      ensures o.Some? ==> View() == old(View())
      ensures o.Some? ==> o.value == if state.cancelled then M.ThrewCancelled else M.Returned(result)
      ensures o.None? ==>
        && state.waiters == old(state.waiters) + [old(loop.tasks[loop.current].id)]
        && loop.current == old(loop.current) + 1 && old(loop.tasks[loop.current]).state == L.Wait
      ensures o.None? ==> View() == M.AfterSaveWaiter(old(View()), old(loop.tasks[loop.current].id))
      ensures o.None? ==> loop.View() == L.Advance(L.SetStatus(old(loop.View()), L.Wait))
    {
      if state.completed {
        var answer := Get();
        return Some(answer);
      }
      state.SaveWaiter(loop.tasks[loop.current].id);
      loop.SwitchOut(L.Wait);
      return None;
    }

    /** `await` once `wait()` has returned. */
    method AwaitLeave() returns (o: M.Outcome<T>)
      ensures o.ThrewCancelled? <==> state.cancelled
      ensures o.ThrewFailed? <==> !state.cancelled && !state.completed
      ensures if state.completed && !state.cancelled then o == M.Returned(result) else !o.Returned?
      ensures o == M.AwaitOutcome(View())
    {
      if state.cancelled { return M.ThrewCancelled; }
      if !state.completed { return M.ThrewFailed; }
      return M.Returned(result);
    }
  }

  class Event {
    var waiters: seq<TaskId>

    constructor ()
      ensures waiters == []
    {
      waiters := [];
    }

    /** Wakes the task that has waited longest, if there is one. */
    method NotifyOne(loop: EventLoop) returns (woken: bool)
      modifies this, loop`toWake
      ensures woken <==> old(waiters) != []
      ensures waiters == if woken then old(waiters)[1..] else []
      ensures loop.toWake == old(loop.toWake) + if woken then [old(waiters)[0]] else []
      ensures M.Notifying(old(waiters), false).rest == waiters
    {
      if waiters == [] {
        return false;
      }
      var task := waiters[0];
      waiters := waiters[1..];
      loop.NotifyReady(task);
      return true;
    }

    /** Wakes every waiting task, in order, and forgets them. */
    method NotifyAll(loop: EventLoop)
      modifies this, loop`toWake
      ensures waiters == [] && loop.toWake == old(loop.toWake) + old(waiters)
      ensures M.Notifying(old(waiters), true).rest == waiters
    {
      for i := 0 to |waiters|
        invariant waiters == old(waiters) && loop.toWake == old(loop.toWake) + waiters[..i]
      {
        loop.NotifyReady(waiters[i]);
      }
      waiters := [];
    }

    /** The current task joins the end of the list and blocks. */
    method Wait(loop: EventLoop)
      requires loop.Valid() && loop.current < |loop.tasks|
      modifies this, loop`current, loop.tasks[loop.current]
      ensures loop.Valid() && waiters == old(waiters) + [old(loop.tasks[loop.current].id)]
      ensures loop.current == old(loop.current) + 1 && old(loop.tasks[loop.current]).state == L.Wait
      ensures loop.View() == L.Advance(L.SetStatus(old(loop.View()), L.Wait))
    {
      waiters := waiters + [loop.tasks[loop.current].id];
      loop.SwitchOut(L.Wait);
    }

    /** `found[k]` is the list as other tasks and threads have left it when the k-th `yield`
        returns. Exactly one task is woken, the first of the first list that is not empty;
        `done` is false only if the list was empty each time. */
    method EnsureNotifyOne(loop: EventLoop, found: seq<seq<TaskId>>) returns (passes: nat, done: bool)
      modifies this, loop`toWake
      ensures var lists := [old(waiters)] + found;
        && passes <= |found| && (forall k :: 0 <= k < passes ==> lists[k] == [])
        && (done <==> lists[passes] != []) && (!done ==> passes == |found|)
        && waiters == (if done then lists[passes][1..] else [])
        && loop.toWake == old(loop.toWake) + if done then [lists[passes][0]] else []
    {
      ghost var lists := [old(waiters)] + found;
      passes := 0;
      done := NotifyOne(loop);
      while !done && passes < |found|
        invariant passes <= |found| && (done <==> lists[passes] != [])
        invariant forall k :: 0 <= k < passes ==> lists[k] == []
        invariant waiters == if done then lists[passes][1..] else []
        invariant loop.toWake == old(loop.toWake) + if done then [lists[passes][0]] else []
        decreases |found| - passes
      {
        waiters := found[passes];
        passes := passes + 1;
        done := NotifyOne(loop);
      }
    }
  }
}
