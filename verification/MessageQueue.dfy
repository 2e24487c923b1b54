/** `Queue`: producers and consumers matched through futures. */
module MessageQueue {
  import Q = QueueModel
  import opened Runtime
  import opened Primitives

  datatype Waiter<T> = Waiter(task: TaskId, future: Future<T>)

  function FuturesOf<T>(ws: seq<Waiter<T>>): (r: seq<Future<T>>)
    ensures |r| == |ws| && forall i :: 0 <= i < |ws| ==> r[i] == ws[i].future
  {
    seq(|ws|, i requires 0 <= i < |ws| => ws[i].future)
  }

  /** The tasks registered with each of the futures of `ws`. */
  ghost function Registered<T>(ws: seq<Waiter<T>>): (r: seq<seq<TaskId>>)
    reads set w | w in ws :: w.future.state
    ensures |r| == |ws| && forall i :: 0 <= i < |ws| ==> r[i] == ws[i].future.state.waiters
  {
    seq(|ws|, i requires 0 <= i < |ws| reads set w | w in ws :: w.future.state => ws[i].future.state.waiters)
  }

  function Joined(lists: seq<seq<TaskId>>): seq<TaskId> {
    if lists == [] then [] else Joined(lists[..|lists| - 1]) + lists[|lists| - 1]
  }

  lemma JoinedAll(lists: seq<seq<TaskId>>)
    ensures Joined(lists[..|lists|]) == Joined(lists)
  {
    assert lists[..|lists|] == lists;
  }

  lemma JoinedNext(lists: seq<seq<TaskId>>, k: nat)
    requires k < |lists|
    ensures Joined(lists[..k + 1]) == Joined(lists[..k]) + lists[k]
  {
    assert lists[..k + 1][..k] == lists[..k];
  }

  class Queue<T(0)> {
    var queue: seq<T>
    var waiters: seq<Waiter<T>>

    ghost function View(): Q.Line<T, Future<T>>
      reads this
    {
      Q.Line(queue, FuturesOf(waiters))
    }

    constructor ()
      ensures queue == [] && waiters == []
      ensures View() == Q.Line([], [])
    {
      queue, waiters := [], [];
    }

    method Empty() returns (r: bool)
      ensures r <==> queue == []
    {
      return queue == [];
    }

    method PopFront() returns (v: T)
      requires queue != []
      modifies this`queue
      ensures v == old(queue)[0] && queue == old(queue)[1..]
    {
      v := queue[0];
      queue := queue[1..];
    }

    /** The element joins the end; whoever has waited longest is served with the oldest one. */
    method Put(value: T, loop: EventLoop)
      modifies this, loop`toWake
      modifies if waiters != [] then {waiters[0].future, waiters[0].future.state} else {}
      ensures old(waiters) == [] ==>
        waiters == [] && queue == old(queue) + [value] && loop.toWake == old(loop.toWake)
      ensures old(waiters) != [] ==>
        && waiters == old(waiters)[1..] && queue == (old(queue) + [value])[1..]
        && loop.toWake == old(loop.toWake) + old(waiters[0].future.state.waiters)
        && old(waiters)[0].future.View()
           == old(waiters[0].future.View()).(completed := true, value := (old(queue) + [value])[0])
      ensures var r := Q.Put(old(View()), value);
        View() == r.0
        && (r.1.Some? <==> old(waiters) != [])
        && (r.1.Some? ==> r.1.value == Q.Delivery(old(waiters)[0].future, (old(queue) + [value])[0]))
    {
      queue := queue + [value];
      if waiters != [] {
        var waiter := waiters[0];
        waiters := waiters[1..];
        var v := PopFront();
        waiter.future.Complete(v, loop);
      }
    }

    method Get(default: T, loop: EventLoop) returns (f: Future<T>)
      requires queue == [] || waiters != [] ==> loop.current < |loop.tasks|
      modifies this, loop`toWake
      ensures fresh(f) && fresh(f.state) && loop.toWake == old(loop.toWake)
      ensures !f.state.cancelled && f.state.waiters == []
      ensures if old(queue) != [] && old(waiters) == []
        then f.state.completed && f.result == old(queue)[0] && queue == old(queue)[1..] && waiters == []
        else
          && !f.state.completed && queue == old(queue)
          && waiters == old(waiters) + [Waiter(loop.tasks[loop.current].id, f)]
      ensures var r := Q.Get(old(View()), f);
        View() == r.0 && (r.1.Some? <==> f.state.completed) && (r.1.Some? ==> f.result == r.1.value.value)
    {
      f := new Future(default);
      if queue != [] && waiters == [] {
        var v := PopFront();
        f.Complete(v, loop);
        return;
      }
      waiters := waiters + [Waiter(loop.tasks[loop.current].id, f)];
    }

    /** The loop over the waiters in `clear`. */
    method CancelAll(loop: EventLoop)
      modifies loop`toWake, (set w | w in waiters :: w.future.state)`cancelled
      ensures loop.toWake == old(loop.toWake) + Joined(old(Registered(waiters)))
      ensures forall w :: w in waiters ==> w.future.state.cancelled
    {
      ghost var registered := Registered(waiters);
      for i := 0 to |waiters|
        invariant loop.toWake == old(loop.toWake) + Joined(registered[..i])
        invariant forall k :: 0 <= k < i ==> waiters[k].future.state.cancelled
      {
        JoinedNext(registered, i);
        assert waiters[i].future.View().waiters == registered[i];
        waiters[i].future.Cancel(loop);
      }
      JoinedAll(registered);
    }

    /** Every waiting future is cancelled, and whoever awaits one is to be woken; elements are dropped. */
    method Clear(loop: EventLoop)
      modifies this, loop`toWake, (set w | w in waiters :: w.future.state)`cancelled
      ensures queue == [] && waiters == [] && View() == Q.Line([], [])
      ensures loop.toWake == old(loop.toWake) + Joined(old(Registered(waiters)))
      ensures forall w :: w in old(waiters) ==> w.future.state.cancelled
    {
      queue := [];
      CancelAll(loop);
      waiters := [];
    }
  }
}
