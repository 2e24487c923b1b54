/** The mutexes of the runtime. Every operation takes them in the order queue, then event or
    future, then the loop's `sync.mutex`, so threads cannot wait for each other in a circle. */
module Locks {
  import opened Options

  datatype Lock = QueueLock(q: nat) | EventLock(e: nat) | FutureLock(f: nat) | SyncLock | PoolLock

  function Rank(l: Lock): nat {
    match l
    case QueueLock(_) => 0
    case EventLock(_) => 1
    case FutureLock(_) => 1
    case SyncLock => 2
    case PoolLock => 3
  }

  datatype Instr = Acquire(l: Lock) | Release(l: Lock)

  /** A future with so many waiters. */
  datatype Watched = Watched(f: nat, waiters: nat)

  /** The operations that take mutexes, with what decides how many. */
  datatype Operation =
    | AddTask | NotifyReady | ProcessSync
    | SaveFutureWaiter(f: nat)
    | ResolveFuture(w: Watched)                 // complete, cancel, and the cancel of cleanUpTask
    | SaveEventWaiter(e: nat)
    | NotifyEvent(e: nat, n: nat)               // notifyOne: n <= 1; notifyAll: all n waiters
    | QueueEmpty(q: nat)
    | QueuePut(q: nat, to: Option<Watched>)
    | QueueGet(q: nat, served: Option<nat>)     // completes its new future if it is served
    | QueueClear(q: nat, waiting: seq<Watched>)
    | ScheduleTask

  /** `notify` once for each of `n` waiters. */
  function Notifies(n: nat): seq<Instr> {
    if n == 0 then [] else [Acquire(SyncLock), Release(SyncLock)] + Notifies(n - 1)
  }

  function Resolve(w: Watched): seq<Instr> {
    [Acquire(FutureLock(w.f))] + Notifies(w.waiters) + [Release(FutureLock(w.f))]
  }

  function ResolveAll(ws: seq<Watched>): seq<Instr> {
    if ws == [] then [] else Resolve(ws[0]) + ResolveAll(ws[1..])
  }

  function Holding(l: Lock, inner: seq<Instr>): seq<Instr> {
    [Acquire(l)] + inner + [Release(l)]
  }

  /** The mutex operations each of them performs, in order. */
  function Script(op: Operation): seq<Instr> {
    match op
    case AddTask => Holding(SyncLock, [])
    case NotifyReady => Notifies(1)
    case ProcessSync => Holding(SyncLock, [])
    case SaveFutureWaiter(f) => Holding(FutureLock(f), [])
    case ResolveFuture(w) => Resolve(w)
    case SaveEventWaiter(e) => Holding(EventLock(e), [])
    case NotifyEvent(e, n) => Holding(EventLock(e), Notifies(n))
    case QueueEmpty(q) => Holding(QueueLock(q), [])
    case QueuePut(q, to) => Holding(QueueLock(q), if to.Some? then Resolve(to.value) else [])
    case QueueGet(q, served) => Holding(QueueLock(q), if served.Some? then Resolve(Watched(served.value, 0)) else [])
    case QueueClear(q, waiting) => Holding(QueueLock(q), ResolveAll(waiting))
    case ScheduleTask => Holding(PoolLock, [])
  }

  // ------------------------------------------------------- the lock discipline

  predicate Above(held: seq<Lock>, l: Lock) {
    forall k :: 0 <= k < |held| ==> Rank(held[k]) < Rank(l)
  }

  /** The rest of a script, run by a thread that holds `held`: locks are taken upwards, given
      back in reverse, and none is kept. */
  predicate Disciplined(script: seq<Instr>, held: seq<Lock>)
    decreases |script|
  {
    if script == [] then held == []
    else match script[0]
      case Acquire(l) => Above(held, l) && Disciplined(script[1..], held + [l])
      case Release(l) => held != [] && held[|held| - 1] == l && Disciplined(script[1..], held[..|held| - 1])
  }

  predicate Below(held: seq<Lock>, r: nat) {
    forall k :: 0 <= k < |held| ==> Rank(held[k]) < r
  }

  /** A block that takes only locks from rank `r` up, and gives all of them back. */
  ghost predicate Block(script: seq<Instr>, r: nat) {
    forall rest: seq<Instr>, held: seq<Lock> ::
      Disciplined(rest, held) && Below(held, r) ==> Disciplined(script + rest, held)
  }

  lemma EmptyBlock(r: nat)
    ensures Block([], r)
  {
    assert forall rest: seq<Instr> :: [] + rest == rest;
  }

  lemma BlockConcat(a: seq<Instr>, b: seq<Instr>, r: nat)
    requires Block(a, r) && Block(b, r)
    ensures Block(a + b, r)
  {
    forall rest: seq<Instr>, held: seq<Lock> | Disciplined(rest, held) && Below(held, r)
      ensures Disciplined((a + b) + rest, held)
    {
      assert Disciplined(b + rest, held);
      assert Disciplined(a + (b + rest), held);
      assert (a + b) + rest == a + (b + rest);
    }
  }

  lemma HoldingBlock(l: Lock, inner: seq<Instr>, r: nat)
    requires Block(inner, Rank(l) + 1) && r <= Rank(l)
    ensures Block(Holding(l, inner), r)
  {
    forall rest: seq<Instr>, held: seq<Lock> | Disciplined(rest, held) && Below(held, r)
      ensures Disciplined(Holding(l, inner) + rest, held)
    {
      var tail := [Release(l)] + rest;
      assert tail[1..] == rest;
      assert (held + [l])[..|held|] == held;
      assert Disciplined(tail, held + [l]);
      assert Below(held + [l], Rank(l) + 1);
      assert Disciplined(inner + tail, held + [l]);
      var all := Holding(l, inner) + rest;
      assert all[0] == Acquire(l) && all[1..] == inner + tail;
    }
  }

  lemma {:induction false} NotifiesBlock(n: nat)
    ensures Block(Notifies(n), 2)
  {
    if n == 0 {
      EmptyBlock(2);
    } else {
      NotifiesBlock(n - 1);
      EmptyBlock(3);
      HoldingBlock(SyncLock, [], 2);
      assert Holding(SyncLock, []) == [Acquire(SyncLock), Release(SyncLock)];
      BlockConcat([Acquire(SyncLock), Release(SyncLock)], Notifies(n - 1), 2);
    }
  }

  lemma ResolveBlock(w: Watched)
    ensures Block(Resolve(w), 1)
  {
    NotifiesBlock(w.waiters);
    HoldingBlock(FutureLock(w.f), Notifies(w.waiters), 1);
  }

  lemma {:induction false} ResolveAllBlock(ws: seq<Watched>)
    ensures Block(ResolveAll(ws), 1)
  {
    if ws == [] {
      EmptyBlock(1);
    } else {
      ResolveBlock(ws[0]);
      ResolveAllBlock(ws[1..]);
      BlockConcat(Resolve(ws[0]), ResolveAll(ws[1..]), 1);
    }
  }

  lemma BlockAlone(script: seq<Instr>, r: nat)
    requires Block(script, r)
    ensures Disciplined(script, [])
  {
    assert Disciplined([], []) && Below([], r);
    assert script + [] == script;
  }

  lemma SimpleSection(l: Lock)
    ensures Disciplined(Holding(l, []), [])
  {
    EmptyBlock(Rank(l) + 1);
    HoldingBlock(l, [], 0);
    BlockAlone(Holding(l, []), 0);
  }

  lemma QueueSection(q: nat, inner: seq<Instr>)
    requires Block(inner, 1)
    ensures Disciplined(Holding(QueueLock(q), inner), [])
  {
    HoldingBlock(QueueLock(q), inner, 0);
    BlockAlone(Holding(QueueLock(q), inner), 0);
  }

  /** Every operation keeps the discipline. */
  lemma OperationsAreDisciplined(op: Operation)
    ensures Disciplined(Script(op), [])
  {
    EmptyBlock(1);
    match op {
      case AddTask => SimpleSection(SyncLock);
      case NotifyReady => NotifiesBlock(1); BlockAlone(Notifies(1), 2);
      case ProcessSync => SimpleSection(SyncLock);
      case SaveFutureWaiter(f) => SimpleSection(FutureLock(f));
      case ResolveFuture(w) => ResolveBlock(w); BlockAlone(Resolve(w), 1);
      case SaveEventWaiter(e) => SimpleSection(EventLock(e));
      case NotifyEvent(e, n) =>
        NotifiesBlock(n);
        HoldingBlock(EventLock(e), Notifies(n), 0);
        BlockAlone(Script(op), 0);
      case QueueEmpty(q) => SimpleSection(QueueLock(q));
      case QueuePut(q, to) =>
        if to.Some? { ResolveBlock(to.value); }
        QueueSection(q, if to.Some? then Resolve(to.value) else []);
      case QueueGet(q, served) =>
        if served.Some? { ResolveBlock(Watched(served.value, 0)); }
        QueueSection(q, if served.Some? then Resolve(Watched(served.value, 0)) else []);
      case QueueClear(q, waiting) => ResolveAllBlock(waiting); QueueSection(q, ResolveAll(waiting));
      case ScheduleTask => SimpleSection(PoolLock);
    }
  }

  // ------------------------------------------------------- which mutexes, and how often

  function Acquired(script: seq<Instr>): multiset<Lock> {
    if script == [] then multiset{}
    else (if script[0].Acquire? then multiset{script[0].l} else multiset{}) + Acquired(script[1..])
  }

  /** The future's own mutex, and the loop's for each task to be woken. */
  function ToResolve(w: Watched): multiset<Lock> {
    multiset{FutureLock(w.f)} + multiset{}[SyncLock := w.waiters]
  }

  function ToResolveAll(ws: seq<Watched>): multiset<Lock> {
    if ws == [] then multiset{} else ToResolve(ws[0]) + ToResolveAll(ws[1..])
  }

  /** The mutex an operation holds from its beginning to its end. */
  function Outer(op: Operation): Lock {
    match op
    case AddTask => SyncLock
    case NotifyReady => SyncLock
    case ProcessSync => SyncLock
    case SaveFutureWaiter(f) => FutureLock(f)
    case ResolveFuture(w) => FutureLock(w.f)
    case SaveEventWaiter(e) => EventLock(e)
    case NotifyEvent(e, _) => EventLock(e)
    case QueueEmpty(q) => QueueLock(q)
    case QueuePut(q, _) => QueueLock(q)
    case QueueGet(q, _) => QueueLock(q)
    case QueueClear(q, _) => QueueLock(q)
    case ScheduleTask => PoolLock
  }

  /** What it takes besides, while it holds that one. */
  function Inner(op: Operation): multiset<Lock> {
    match op
    case ResolveFuture(w) => multiset{}[SyncLock := w.waiters]
    case NotifyEvent(_, n) => multiset{}[SyncLock := n]
    case QueuePut(_, to) => if to.Some? then ToResolve(to.value) else multiset{}
    case QueueGet(_, served) => if served.Some? then multiset{FutureLock(served.value)} else multiset{}
    case QueueClear(_, waiting) => ToResolveAll(waiting)
    case _ => multiset{}
  }

  lemma {:induction false} AcquiredConcat(a: seq<Instr>, b: seq<Instr>)
    ensures Acquired(a + b) == Acquired(a) + Acquired(b)
    decreases |a|
  {
    if a == [] {
      assert a + b == b;
    } else {
      assert (a + b)[1..] == a[1..] + b;
      AcquiredConcat(a[1..], b);
    }
  }

  lemma AcquiredHolding(l: Lock, inner: seq<Instr>)
    ensures Acquired(Holding(l, inner)) == multiset{l} + Acquired(inner)
    ensures Holding(l, inner)[0] == Acquire(l) && Holding(l, inner)[|Holding(l, inner)| - 1] == Release(l)
  {
    AcquiredConcat([Acquire(l)] + inner, [Release(l)]);
    AcquiredConcat([Acquire(l)], inner);
    assert Acquired([Release(l)]) == Acquired([]) && Acquired([Acquire(l)]) == multiset{l} + Acquired([]);
  }

  lemma {:induction false} AcquiredNotifies(n: nat)
    ensures Acquired(Notifies(n)) == multiset{}[SyncLock := n]
  {
    if n > 0 {
      AcquiredNotifies(n - 1);
      AcquiredHolding(SyncLock, []);
      assert Holding(SyncLock, []) == [Acquire(SyncLock), Release(SyncLock)];
      AcquiredConcat(Holding(SyncLock, []), Notifies(n - 1));
    }
  }

  lemma AcquiredResolve(w: Watched)
    ensures Acquired(Resolve(w)) == ToResolve(w)
    ensures Resolve(w) == Holding(FutureLock(w.f), Notifies(w.waiters))
  {
    AcquiredHolding(FutureLock(w.f), Notifies(w.waiters));
    AcquiredNotifies(w.waiters);
  }

  lemma {:induction false} AcquiredResolveAll(ws: seq<Watched>)
    ensures Acquired(ResolveAll(ws)) == ToResolveAll(ws)
  {
    if ws != [] {
      AcquiredResolve(ws[0]);
      AcquiredConcat(Resolve(ws[0]), ResolveAll(ws[1..]));
      AcquiredResolveAll(ws[1..]);
    }
  }

  /** Each operation holds its outer mutex from beginning to end, takes it once, and takes inside
      exactly the others it needs. */
  lemma TakesItsLocks(op: Operation)
    ensures var s := Script(op);
      && s != [] && s[0] == Acquire(Outer(op)) && s[|s| - 1] == Release(Outer(op))
      && Acquired(s) == multiset{Outer(op)} + Inner(op)
  {
    AcquiredHolding(Outer(op), []);
    match op {
      case NotifyReady => AcquiredNotifies(1); assert Notifies(1) == Holding(SyncLock, []);
      case ResolveFuture(w) => AcquiredResolve(w); AcquiredHolding(FutureLock(w.f), Notifies(w.waiters));
      case NotifyEvent(e, n) => AcquiredNotifies(n); AcquiredHolding(EventLock(e), Notifies(n));
      case QueuePut(q, to) =>
        if to.Some? { AcquiredResolve(to.value); AcquiredHolding(QueueLock(q), Resolve(to.value)); }
      case QueueGet(q, served) =>
        if served.Some? {
          AcquiredResolve(Watched(served.value, 0));
          AcquiredHolding(QueueLock(q), Resolve(Watched(served.value, 0)));
        }
      case QueueClear(q, waiting) => AcquiredResolveAll(waiting); AcquiredHolding(QueueLock(q), ResolveAll(waiting));
      case _ =>
    }
  }

  // ------------------------------------------------------- threads

  /** A thread in the middle of an operation, with more to do. */
  datatype Thread = Thread(held: seq<Lock>, rest: seq<Instr>, todo: seq<Operation>)

  predicate Finished(t: Thread) {
    t.rest == [] && t.todo == []
  }

  predicate Held(ts: seq<Thread>, l: Lock) {
    exists i :: 0 <= i < |ts| && l in ts[i].held
  }

  /** A thread can go on unless it wants a mutex that some thread holds, maybe itself. */
  predicate Enabled(ts: seq<Thread>, i: nat) {
    i < |ts| && !Finished(ts[i]) && (ts[i].rest != [] && ts[i].rest[0].Acquire? ==> !Held(ts, ts[i].rest[0].l))
  }

  function Advance(t: Thread): Thread
    requires !Finished(t)
  {
    if t.rest == [] then t.(rest := Script(t.todo[0]), todo := t.todo[1..])
    else match t.rest[0]
      case Acquire(l) => t.(held := t.held + [l], rest := t.rest[1..])
      case Release(l) => t.(held := if t.held == [] then [] else t.held[..|t.held| - 1], rest := t.rest[1..])
  }

  function StepThread(ts: seq<Thread>, i: nat): seq<Thread>
    requires Enabled(ts, i)
  {
    ts[i := Advance(ts[i])]
  }

  predicate AllowedRun(ts: seq<Thread>, schedule: seq<nat>)
    decreases |schedule|
  {
    schedule == [] || (Enabled(ts, schedule[0]) && AllowedRun(StepThread(ts, schedule[0]), schedule[1..]))
  }

  function Run(ts: seq<Thread>, schedule: seq<nat>): seq<Thread>
    requires AllowedRun(ts, schedule)
    decreases |schedule|
  {
    if schedule == [] then ts else Run(StepThread(ts, schedule[0]), schedule[1..])
  }

  predicate ThreadOk(t: Thread) {
    Disciplined(t.rest, t.held)
  }

  /** No mutex has two holders. */
  ghost predicate Exclusive(ts: seq<Thread>) {
    forall i, j, l :: 0 <= i < |ts| && 0 <= j < |ts| && l in ts[i].held && l in ts[j].held ==> i == j
  }

  ghost predicate LockInv(ts: seq<Thread>) {
    (forall i :: 0 <= i < |ts| ==> ThreadOk(ts[i])) && Exclusive(ts)
  }

  lemma AdvanceOk(t: Thread)
    requires ThreadOk(t) && !Finished(t)
    ensures ThreadOk(Advance(t))
  {
    if t.rest == [] {
      OperationsAreDisciplined(t.todo[0]);
    }
  }

  lemma StepKeepsInv(ts: seq<Thread>, i: nat)
    requires LockInv(ts) && Enabled(ts, i)
    ensures LockInv(StepThread(ts, i))
  {
    AdvanceOk(ts[i]);
    var us := StepThread(ts, i);
    forall l | l in us[i].held ensures l in ts[i].held || !Held(ts, l) {}
  }

  lemma {:induction false} RunKeepsInv(ts: seq<Thread>, schedule: seq<nat>)
    requires LockInv(ts) && AllowedRun(ts, schedule)
    ensures LockInv(Run(ts, schedule))
    decreases |schedule|
  {
    if schedule != [] {
      StepKeepsInv(ts, schedule[0]);
      RunKeepsInv(StepThread(ts, schedule[0]), schedule[1..]);
    }
  }

  /** Whoever waits, waits for a thread that holds less: following the holders upwards ends at
      one that can go on. */
  lemma {:induction false} SomebodyCanGoOn(ts: seq<Thread>, i: nat) returns (j: nat)
    requires LockInv(ts) && i < |ts| && !Finished(ts[i])
    ensures Enabled(ts, j)
    decreases if ts[i].rest != [] && ts[i].rest[0].Acquire? then 4 - Rank(ts[i].rest[0].l) else 5
  {
    if Enabled(ts, i) {
      j := i;
    } else {
      var l := ts[i].rest[0].l;
      var k :| 0 <= k < |ts| && l in ts[k].held;
      assert ThreadOk(ts[k]) && ts[k].rest != [];
      if Enabled(ts, k) {
        j := k;
      } else {
        var m :| 0 <= m < |ts[k].held| && ts[k].held[m] == l;
        j := SomebodyCanGoOn(ts, k);
      }
    }
  }

  // ------------------------------------------------------- every schedule ends

  function Planned(ops: seq<Operation>): nat {
    if ops == [] then 0 else 1 + |Script(ops[0])| + Planned(ops[1..])
  }

  function Work(t: Thread): nat {
    |t.rest| + Planned(t.todo)
  }

  function TotalWork(ts: seq<Thread>): nat {
    if ts == [] then 0 else Work(ts[0]) + TotalWork(ts[1..])
  }

  lemma {:induction false} TotalWorkUpdate(ts: seq<Thread>, i: nat, t: Thread)
    requires i < |ts|
    ensures TotalWork(ts[i := t]) == TotalWork(ts) - Work(ts[i]) + Work(t)
  {
    if i > 0 {
      assert ts[i := t][1..] == ts[1..][i - 1 := t];
      TotalWorkUpdate(ts[1..], i - 1, t);
    } else {
      assert ts[i := t][1..] == ts[1..];
    }
  }

  lemma {:induction false} ScheduleLength(ts: seq<Thread>, schedule: seq<nat>)
    requires AllowedRun(ts, schedule)
    ensures |schedule| + TotalWork(Run(ts, schedule)) == TotalWork(ts)
    decreases |schedule|
  {
    if schedule != [] {
      var i := schedule[0];
      TotalWorkUpdate(ts, i, Advance(ts[i]));
      ScheduleLength(StepThread(ts, i), schedule[1..]);
    }
  }

  /** Threads that hold nothing yet, with any operations to perform. */
  function Beginning(plans: seq<seq<Operation>>): seq<Thread> {
    seq(|plans|, i requires 0 <= i < |plans| => Thread([], [], plans[i]))
  }

  /** In every interleaving of any operations by any number of threads: while an operation is
      unfinished some thread can go on, and no schedule is longer than the work there is. So every
      operation is finished, whatever the order. */
  lemma NoCircularWait(plans: seq<seq<Operation>>, schedule: seq<nat>)
    requires AllowedRun(Beginning(plans), schedule)
    ensures var ts := Run(Beginning(plans), schedule);
      && (forall i :: 0 <= i < |ts| && !Finished(ts[i]) ==> exists j :: Enabled(ts, j))
      && |schedule| <= TotalWork(Beginning(plans))
  {
    assert Exclusive(Beginning(plans));
    RunKeepsInv(Beginning(plans), schedule);
    ScheduleLength(Beginning(plans), schedule);
    var ts := Run(Beginning(plans), schedule);
    forall i | 0 <= i < |ts| && !Finished(ts[i]) ensures exists j :: Enabled(ts, j) {
      var j := SomebodyCanGoOn(ts, i);
    }
  }
}
