/** Whom a notification of an event wakes, over runs of the loop, its tasks and foreign threads:
    all the waiting tasks or the one that has waited longest, first come, first woken. */
module Notifications {
  import opened LoopModel
  import opened Machine
  import opened Runs

  /** A notification of all waiters of `e`, by a task or by a thread. */
  predicate NotifiesAll(a: Act, e: EventId) {
    (a.NotifyAll? && a.e == e) || (a.Take? && a.all && a.e == e)
  }

  predicate NotifiesOne(a: Act, e: EventId) {
    (a.NotifyOne? && a.e == e) || (a.Take? && !a.all && a.e == e)
  }

  /** The step asks the loop to wake `ids`, in order, or takes them in hand to do so. */
  predicate Wakes(w: World, a: Act, u: World, ids: seq<TaskId>) {
    if a.Take? then
      a.thread < |w.hands| && u.hands == w.hands[a.thread := Hand(a.e, ids)] && u.loop.toWake == w.loop.toWake
    else
      u.loop.toWake == w.loop.toWake + ids && u.hands == w.hands
  }

  lemma WokenInFlight(w: World, a: Act, u: World, ids: seq<TaskId>, t: TaskId)
    requires Wakes(w, a, u, ids) && t in ids
    ensures InFlight(u, t)
  {
    if a.Take? { assert u.hands[a.thread].ids == ids; }
  }

  /** Nobody is left in the list, and everybody who was there is about to be woken. */
  lemma AllAreWoken(w: World, a: Act, e: EventId)
    requires Allowed(w, a) && NotifiesAll(a, e)
    ensures e < |w.events| && Step(w, a).events == w.events[e := []] && Wakes(w, a, Step(w, a), w.events[e])
    ensures forall t :: t in w.events[e] ==> InFlight(Step(w, a), t)
  {
    forall t | t in w.events[e] ensures InFlight(Step(w, a), t) { WokenInFlight(w, a, Step(w, a), w.events[e], t); }
  }

  /** Exactly the task that has waited longest leaves the list and is about to be woken; nothing
      happens if nobody waits. */
  lemma FirstIsWoken(w: World, a: Act, e: EventId)
    requires Allowed(w, a) && NotifiesOne(a, e)
    ensures e < |w.events|
    ensures w.events[e] == [] ==> Step(w, a).events == w.events && Wakes(w, a, Step(w, a), [])
    ensures w.events[e] != [] ==>
      && Step(w, a).events == w.events[e := w.events[e][1..]] && Wakes(w, a, Step(w, a), [w.events[e][0]])
      && InFlight(Step(w, a), w.events[e][0])
  {
    if w.events[e] == [] {
      assert w.events[e := []] == w.events;
      assert w.loop.toWake + [] == w.loop.toWake;
    } else {
      WokenInFlight(w, a, Step(w, a), [w.events[e][0]], w.events[e][0]);
    }
  }

  /** A thread passes on what it has in hand one by one, in order. */
  lemma DeliversInOrder(w: World, k: nat)
    requires Allowed(w, Deliver(k))
    ensures var u := Step(w, Deliver(k));
      && |u.hands| == |w.hands| && u.hands[k].event == w.hands[k].event
      && w.loop.toWake + w.hands[k].ids == u.loop.toWake + u.hands[k].ids
      && |u.hands[k].ids| == |w.hands[k].ids| - 1
  {
    var ids := w.hands[k].ids;
    assert ids == [ids[0]] + ids[1..];
  }

  // ------------------------------------------------------- the list over a run

  /** Who joins the list of `e`: the task that saves itself there. */
  function Joining(w: World, a: Act, e: EventId): seq<TaskId>
    requires Allowed(w, a)
  {
    if a.SaveWaiter? && a.e == e then [Self(w).id] else []
  }

  /** How many leave it. */
  function Leaving(w: World, a: Act, e: EventId): (n: nat)
    requires e < |w.events|
    ensures n <= |w.events[e]|
  {
    if NotifiesAll(a, e) then |w.events[e]|
    else if NotifiesOne(a, e) && w.events[e] != [] then 1
    else 0
  }

  lemma CleanUpKeepsEvents(w: World)
    requires w.loop.current < |w.loop.tasks|
    ensures CleanUp(w).events == w.events && CleanUp(w).hands == w.hands
  {}

  lemma DispatchKeepsEvents(w: World)
    ensures Dispatch(w).events == w.events && Dispatch(w).hands == w.hands
  {
    if w.loop.current < |w.loop.tasks| && Self(w).status == Done { CleanUpKeepsEvents(w); }
  }

  lemma CycleKeepsEvents(w: World)
    requires Allowed(w, Cycle)
    ensures Step(w, Cycle).events == w.events && Step(w, Cycle).hands == w.hands
  {
    if AllListed(w.loop.tasks, w.loop.toWake) { DispatchKeepsEvents(Drain(w)); }
  }

  lemma OthersKeepEvents(w: World, a: Act, e: EventId)
    requires Allowed(w, a) && e < |w.events| && !NotifiesAll(a, e) && !NotifiesOne(a, e)
    ensures e < |Step(w, a).events| && Step(w, a).events[e] == w.events[e] + Joining(w, a, e)
  {
    assert w.events[e] + [] == w.events[e];
    if a.Cycle? { CycleKeepsEvents(w); }
  }

  /** Events are only ever added, with empty lists. */
  lemma EventsAdded(w: World, a: Act)
    requires Allowed(w, a)
    ensures |Step(w, a).events| == |w.events| + if a.NewEvent? then 1 else 0
    ensures a.NewEvent? ==> Step(w, a).events[..|w.events|] == w.events && Step(w, a).events[|w.events|] == []
  {
    if a.Cycle? { CycleKeepsEvents(w); }
  }

  lemma ListAfter(w: World, a: Act, e: EventId)
    requires Allowed(w, a) && e < |w.events|
    ensures e < |Step(w, a).events|
    ensures Step(w, a).events[e] == w.events[e][Leaving(w, a, e)..] + Joining(w, a, e)
  {
    if NotifiesAll(a, e) {
      AllAreWoken(w, a, e);
    } else if NotifiesOne(a, e) {
      FirstIsWoken(w, a, e);
    } else {
      OthersKeepEvents(w, a, e);
    }
  }

  /** While a thread has ids of `e` in hand it holds its mutex: nobody joins or leaves the list. */
  lemma LockedListStays(w: World, a: Act, k: nat)
    requires Allowed(w, a) && k < |w.hands| && w.hands[k].ids != [] && w.hands[k].event < |w.events|
    ensures var e := w.hands[k].event;
      e < |Step(w, a).events| && Step(w, a).events[e] == w.events[e]
  {
    var e := w.hands[k].event;
    assert !Unlocked(w, e);
    ListAfter(w, a, e);
  }

  /** All who join the list of `e` in a run, in order. */
  function Arrivals(w: World, acts: seq<Act>, e: EventId): seq<TaskId>
    requires AllowedRun(w, acts)
    decreases |acts|
  {
    if acts == [] then [] else Joining(w, acts[0], e) + Arrivals(Step(w, acts[0]), acts[1..], e)
  }

  function Departures(w: World, acts: seq<Act>, e: EventId): nat
    requires AllowedRun(w, acts)
    decreases |acts|
  {
    if acts == [] || e >= |w.events| then 0
    else Leaving(w, acts[0], e) + Departures(Step(w, acts[0]), acts[1..], e)
  }

  lemma DropTwice<T>(list: seq<T>, n: nat, joined: seq<T>, m: nat, rest: seq<T>)
    requires n <= |list| && m <= |list[n..] + joined + rest|
    ensures n + m <= |list + (joined + rest)|
    ensures (list[n..] + joined + rest)[m..] == (list + (joined + rest))[n + m..]
  {
    assert list + (joined + rest) == list[..n] + (list[n..] + joined + rest);
  }

  /** Over every run: the list of an event is what was there and whoever joined, in order,
      without as many from the front as were notified. */
  lemma {:induction false} FirstComeFirstWoken(w: World, acts: seq<Act>, e: EventId)
    requires AllowedRun(w, acts) && e < |w.events|
    ensures e < |Run(w, acts).events| && Departures(w, acts, e) <= |w.events[e] + Arrivals(w, acts, e)|
    ensures Run(w, acts).events[e] == (w.events[e] + Arrivals(w, acts, e))[Departures(w, acts, e)..]
    decreases |acts|
  {
    if acts == [] {
      assert w.events[e] + [] == w.events[e];
    } else {
      ListAfter(w, acts[0], e);
      var v := Step(w, acts[0]);
      FirstComeFirstWoken(v, acts[1..], e);
      DropTwice(w.events[e], Leaving(w, acts[0], e), Joining(w, acts[0], e),
                Departures(v, acts[1..], e), Arrivals(v, acts[1..], e));
    }
  }
}
