/** A queue inside the runtime: `put`, `get` and `clear` as steps of a task, made of the machine's
    own steps on futures, among any other steps. Tasks await the futures that `get`
    gives them like any others. */
module QueueRuns {
  import opened LoopModel
  import opened Options
  import opened FutureModel
  import opened Machine
  import opened Order
  import opened WakeTokens
  import opened Futures
  import opened Runs
  import opened Ownership
  import Q = QueueModel

  datatype QueueAct = Other(a: Act) | Put(v: Value) | Get | Clear

  /** The runtime, and the queue with what was put, asked for, delivered and cancelled. */
  datatype Joint = Joint(w: World, q: Q.State<Value, FutureId>)

  /** The queue has made this future. */
  predicate Made(q: Q.State<Value, FutureId>, f: FutureId) {
    f in q.gets || f in q.delivered || f in q.cancelled
  }

  function CancelActs(fs: seq<FutureId>): seq<Act> {
    if fs == [] then [] else [Cancel(fs[0])] + CancelActs(fs[1..])
  }

  function DeliveryActs(d: Option<Q.Delivery<Value, FutureId>>): seq<Act> {
    if d.None? then [] else [Complete(d.value.to, d.value.value)]
  }

  /** What a step does to futures. */
  function Acts(s: Joint, a: QueueAct): seq<Act> {
    match a
    case Other(b) => [b]
    case Put(v) => DeliveryActs(Q.Put(s.q.line, v).1)
    case Get => [NewFuture] + DeliveryActs(Q.Get(s.q.line, |s.w.futures|).1)
    case Clear => CancelActs(s.q.line.waiters)
  }

  function OpOf(s: Joint, a: QueueAct): Q.Op<Value, FutureId>
    requires !a.Other?
  {
    match a
    case Put(v) => Q.OpPut(v)
    case Get => Q.OpGet(|s.w.futures|)
    case Clear => Q.OpClear
  }

  /** Only the queue resolves its futures, and no task is bound to one. */
  predicate LeavesAlone(q: Q.State<Value, FutureId>, a: Act) {
    a.Complete? || a.Cancel? || a.Bind? ==> !Made(q, a.f)
  }

  predicate CanDo(s: Joint, a: QueueAct) {
    AllowedRun(s.w, Acts(s, a)) && if a.Other? then LeavesAlone(s.q, a.a) else InSlice(s.w)
  }

  function Do(s: Joint, a: QueueAct): Joint
    requires CanDo(s, a)
  {
    Joint(Run(s.w, Acts(s, a)), if a.Other? then s.q else Q.Apply(s.q, OpOf(s, a)))
  }

  // ------------------------------------------------------- the invariant

  /** No worker and no task is bound to the future. */
  ghost predicate Unbound(w: World, f: FutureId) {
    && (forall t :: t in w.wrapped ==> w.wrapped[t] != f)
    && (forall i :: 0 <= i < |All(w)| ==> All(w)[i].result != Some(f))
  }

  /** The future is as the queue left it. */
  predicate AsLeft(w: World, q: Q.State<Value, FutureId>, f: FutureId)
    requires f < |w.futures|
  {
    var x := w.futures[f];
    if f in q.delivered then x.completed && !x.cancelled && x.value == q.delivered[f]
    else if f in q.cancelled then x.cancelled && !x.completed
    else !x.Resolved()
  }

  ghost predicate FutureIsQueues(s: Joint, f: FutureId) {
    Made(s.q, f) ==> f < |s.w.futures| && Unbound(s.w, f) && AsLeft(s.w, s.q, f)
  }

  ghost predicate LineOk(q: Q.State<Value, FutureId>) {
    Q.Matched(q) && Q.Distinct(q.gets) && Q.Separate(q)
  }

  lemma LineKeeps(q: Q.State<Value, FutureId>, op: Q.Op<Value, FutureId>)
    requires LineOk(q) && (op.OpGet? ==> !Made(q, op.f))
    ensures LineOk(Q.Apply(q, op))
  {
    Q.NextSeparate(q, op);
    match op
    case OpPut(v) => Q.PutMatches(q, v);
    case OpGet(f) => Q.GetMatches(q, f);
    case OpClear =>
  }

  lemma ServedOrWaiting(q: Q.State<Value, FutureId>, f: FutureId)
    requires Q.Matched(q) && f in q.gets
    ensures f in q.delivered || f in q.line.waiters
  {
    var m := Q.Min(|q.puts|, |q.gets|);
    assert q.gets == q.gets[..m] + q.gets[m..];
  }

  ghost predicate JointInv(s: Joint) {
    && Inv(s.w) && EndInv(s.w) && RefInv(s.w) && LineOk(s.q)
    && forall f: FutureId :: FutureIsQueues(s, f)
  }

  lemma JointBegins(w: World)
    requires Initial(w)
    ensures JointInv(Joint(w, Q.Empty()))
  {
    OrderInitially(w);
    TokensInitially(w);
    FuturesInitially(w);
    EndInitially(w);
  }

  // ------------------------------------------------------- what other steps leave alone

  predicate SameFate(x: Future<Value>, y: Future<Value>) {
    x.completed == y.completed && x.cancelled == y.cancelled && x.value == y.value
  }

  ghost predicate Spares(w: World, u: World, f: FutureId)
    requires f < |w.futures|
  {
    f < |u.futures| && SameFate(w.futures[f], u.futures[f]) && Unbound(u, f)
  }

  lemma UnboundSame(w: World, u: World, f: FutureId)
    requires Unbound(w, f) && SameNames(w, u)
    ensures Unbound(u, f)
  {}

  lemma UnboundErased(w: World, u: World, f: FutureId)
    requires Unbound(w, f) && Erased(w, u)
    ensures Unbound(u, f)
  {
    ErasedAt(w, u);
  }

  lemma UnboundCycle(w: World, f: FutureId)
    requires Inv(w) && Allowed(w, Cycle) && Unbound(w, f)
    ensures WakesOnlyWaiting(w) && Selecting(Drain(w)) && Unbound(Drain(w), f) && Unbound(DoCycle(w), f)
  {
    CycleKeepsNames(w);
    UnboundSame(w, Drain(w), f);
    if SameNames(Drain(w), DoCycle(w)) {
      UnboundSame(Drain(w), DoCycle(w), f);
    } else {
      UnboundErased(Drain(w), DoCycle(w), f);
    }
  }

  lemma CycleSpares(w: World, f: FutureId)
    requires Inv(w) && Allowed(w, Cycle) && f < |w.futures| && Unbound(w, f)
    ensures Spares(w, DoCycle(w), f)
  {
    UnboundCycle(w, f);
    var d := Drain(w);
    if Self(d).status == Done {
      CleanUpFlags(d);
      assert All(d)[d.loop.current] == Self(d);
    } else {
      FlagsSelect(d);
    }
  }

  lemma UnboundStep(w: World, a: Act, f: FutureId)
    requires Allowed(w, a) && !a.Cycle? && f < |w.futures| && Unbound(w, f) && (a.Bind? ==> a.f != f)
    ensures Unbound(Step(w, a), f)
  {
    var u := Step(w, a);
    if a.Spawn? {
      assert All(u) == All(w) + [All(u)[|All(w)|]];
    } else if a.Bind? {
      assert All(u) == All(w)[w.loop.current := Self(w).(result := Some(a.f))];
    } else {
      OthersKeepNames(w, a);
      UnboundSame(w, u, f);
    }
  }

  lemma StepSpares(w: World, a: Act, f: FutureId)
    requires Inv(w) && Allowed(w, a) && f < |w.futures| && Unbound(w, f)
    requires a.Complete? || a.Cancel? || a.Bind? ==> a.f != f
    ensures Spares(w, Step(w, a), f)
  {
    if a.Cycle? {
      CycleSpares(w, f);
    } else {
      UnboundStep(w, a, f);
      if !Resolves(a) { OthersKeepFlags(w, a); }
    }
  }

  lemma OtherKeeps(s: Joint, a: Act)
    requires JointInv(s) && CanDo(s, Other(a))
    ensures JointInv(Do(s, Other(a)))
  {
    RunOne(s.w, a);
    StepKeepsInv(s.w, a);
    EndStep(s.w, a);
    var u := Do(s, Other(a));
    forall f: FutureId ensures FutureIsQueues(u, f) {
      assert FutureIsQueues(s, f);
      if Made(s.q, f) { StepSpares(s.w, a, f); }
    }
  }

  // ------------------------------------------------------- what the queue's own steps do

  lemma ActsKeepInv(w: World, acts: seq<Act>)
    requires Inv(w) && EndInv(w) && RefInv(w) && AllowedRun(w, acts)
    ensures Inv(Run(w, acts)) && EndInv(Run(w, acts)) && RefInv(Run(w, acts))
  {
    RunKeepsInv(w, acts);
    RunKeepsEnds(w, acts);
  }

  /** A waiting future has been neither served nor cancelled. */
  lemma WaitingIsUnresolved(s: Joint, k: nat)
    requires JointInv(s) && k < |s.q.line.waiters|
    ensures var f := s.q.line.waiters[k];
      Made(s.q, f) && f !in s.q.delivered && f !in s.q.cancelled && Unresolved(s.w, f) && Unbound(s.w, f)
  {
    var m := Q.Min(|s.q.puts|, |s.q.gets|);
    assert s.q.line.waiters[k] == s.q.gets[m + k];
    assert FutureIsQueues(s, s.q.gets[m + k]);
  }

  lemma CompleteIsRun(w: World, f: FutureId, v: Value)
    requires InSlice(w) && Unresolved(w, f)
    ensures AllowedRun(w, [Complete(f, v)]) && Run(w, [Complete(f, v)]) == CompleteFuture(w, f, v)
  {
    RunOne(w, Complete(f, v));
  }

  lemma PutKeeps(s: Joint, v: Value)
    requires JointInv(s) && InSlice(s.w)
    ensures CanDo(s, Put(v)) && JointInv(Do(s, Put(v)))
  {
    var r := Q.Put(s.q.line, v);
    if r.1.Some? {
      WaitingIsUnresolved(s, 0);
      CompleteIsRun(s.w, r.1.value.to, r.1.value.value);
    } else {
      assert AllowedRun(s.w, []);
    }
    ActsKeepInv(s.w, Acts(s, Put(v)));
    LineKeeps(s.q, Q.OpPut(v));
    var u := Do(s, Put(v));
    forall f: FutureId ensures FutureIsQueues(u, f) {
      assert FutureIsQueues(s, f);
      if Made(s.q, f) && r.1.Some? && f != r.1.value.to { StepSpares(s.w, Complete(r.1.value.to, r.1.value.value), f); }
      if Made(s.q, f) && r.1.Some? && f == r.1.value.to { UnboundStep(s.w, Complete(f, r.1.value.value), f); }
    }
  }

  /** The future that `get` makes is new: nobody refers to it. */
  lemma NewIsUnbound(w: World)
    requires RefInv(w) && InSlice(w)
    ensures AllowedRun(w, [NewFuture]) && Run(w, [NewFuture]) == Step(w, NewFuture)
    ensures Unbound(Step(w, NewFuture), |w.futures|) && InSlice(Step(w, NewFuture))
  {
    RunOne(w, NewFuture);
    OthersKeepNames(w, NewFuture);
  }

  /** The world after `get`, step by step. */
  lemma GetIsRun(s: Joint)
    requires JointInv(s) && InSlice(s.w)
    ensures CanDo(s, Get)
    ensures var g, d := |s.w.futures|, Q.Get(s.q.line, |s.w.futures|).1; var n := Step(s.w, NewFuture);
      Do(s, Get).w == if d.Some? then CompleteFuture(n, g, d.value.value) else n
  {
    var g, d := |s.w.futures|, Q.Get(s.q.line, |s.w.futures|).1;
    var n := Step(s.w, NewFuture);
    NewIsUnbound(s.w);
    if d.Some? {
      CompleteIsRun(n, g, d.value.value);
      RunConcat(s.w, [NewFuture], [Complete(g, d.value.value)]);
    } else {
      assert [NewFuture] + [] == [NewFuture];
    }
  }

  lemma GetSpares(s: Joint, f: FutureId)
    requires JointInv(s) && InSlice(s.w) && Made(s.q, f)
    ensures CanDo(s, Get) && f < |s.w.futures| && Spares(s.w, Do(s, Get).w, f)
  {
    GetIsRun(s);
    assert FutureIsQueues(s, f);
    NewIsUnbound(s.w);
    StepSpares(s.w, NewFuture, f);
    var g, d := |s.w.futures|, Q.Get(s.q.line, |s.w.futures|).1;
    if d.Some? { UnboundStep(Step(s.w, NewFuture), Complete(g, d.value.value), f); }
  }

  lemma GetMakes(s: Joint)
    requires JointInv(s) && InSlice(s.w)
    ensures CanDo(s, Get) && FutureIsQueues(Do(s, Get), |s.w.futures|)
  {
    GetIsRun(s);
    NewIsUnbound(s.w);
    var g, d := |s.w.futures|, Q.Get(s.q.line, |s.w.futures|).1;
    assert !Made(s.q, g) by { assert FutureIsQueues(s, g); }
    if d.Some? { UnboundStep(Step(s.w, NewFuture), Complete(g, d.value.value), g); }
  }

  lemma GetFutures(s: Joint, f: FutureId)
    requires JointInv(s) && InSlice(s.w) && CanDo(s, Get)
    ensures FutureIsQueues(Do(s, Get), f)
  {
    assert FutureIsQueues(s, f);
    if Made(s.q, f) { GetSpares(s, f); } else if f == |s.w.futures| { GetMakes(s); }
  }

  lemma GetKeeps(s: Joint)
    requires JointInv(s) && InSlice(s.w)
    ensures CanDo(s, Get) && JointInv(Do(s, Get))
  {
    GetIsRun(s);
    ActsKeepInv(s.w, Acts(s, Get));
    assert FutureIsQueues(s, |s.w.futures|);
    LineKeeps(s.q, Q.OpGet(|s.w.futures|));
    forall f: FutureId ensures FutureIsQueues(Do(s, Get), f) { GetFutures(s, f); }
  }

  ghost predicate AllUnresolved(w: World, fs: seq<FutureId>) {
    forall k :: 0 <= k < |fs| ==> Unresolved(w, fs[k]) && Unbound(w, fs[k])
  }

  lemma CancelOthers(w: World, f: FutureId, g: FutureId)
    requires InSlice(w) && Unresolved(w, f) && Unresolved(w, g) && Unbound(w, g) && f != g
    ensures Unresolved(Step(w, Cancel(f)), g) && Unbound(Step(w, Cancel(f)), g)
  {
    UnboundStep(w, Cancel(f), g);
  }

  lemma CancelFirst(w: World, fs: seq<FutureId>)
    requires Inv(w) && InSlice(w) && Q.Distinct(fs) && AllUnresolved(w, fs) && fs != []
    ensures var u := Step(w, Cancel(fs[0]));
      Inv(u) && InSlice(u) && Q.Distinct(fs[1..]) && AllUnresolved(u, fs[1..])
  {
    var u := Step(w, Cancel(fs[0]));
    StepKeepsInv(w, Cancel(fs[0]));
    forall k | 0 <= k < |fs[1..]| ensures Unresolved(u, fs[1..][k]) && Unbound(u, fs[1..][k]) {
      CancelOthers(w, fs[0], fs[k + 1]);
    }
  }

  /** What cancelling some futures makes of `x`. */
  predicate CancelledIf(b: bool, x: Future<Value>, y: Future<Value>) {
    if b then y.cancelled && !y.completed else SameFate(x, y)
  }

  /** Cancelling one future after the other. */
  lemma {:induction false} CancelsRun(w: World, fs: seq<FutureId>, f: FutureId)
    requires Inv(w) && InSlice(w) && Q.Distinct(fs) && AllUnresolved(w, fs) && f < |w.futures| && Unbound(w, f)
    ensures AllowedRun(w, CancelActs(fs))
    ensures var u := Run(w, CancelActs(fs));
      f < |u.futures| && Unbound(u, f) && CancelledIf(f in fs, w.futures[f], u.futures[f])
    decreases |fs|
  {
    if fs != [] {
      var u := Step(w, Cancel(fs[0]));
      CancelFirst(w, fs);
      UnboundStep(w, Cancel(fs[0]), f);
      CancelsRun(u, fs[1..], f);
      RunCons(w, Cancel(fs[0]), CancelActs(fs[1..]));
      assert f in fs[1..] ==> f != fs[0];
    }
  }

  lemma ClearCanDo(s: Joint)
    requires JointInv(s) && InSlice(s.w)
    ensures Q.Distinct(s.q.line.waiters) && AllUnresolved(s.w, s.q.line.waiters) && CanDo(s, Clear)
  {
    var ws := s.q.line.waiters;
    forall k | 0 <= k < |ws| ensures Unresolved(s.w, ws[k]) && Unbound(s.w, ws[k]) { WaitingIsUnresolved(s, k); }
    if ws == [] {
      assert AllowedRun(s.w, []);
    } else {
      CancelsRun(s.w, ws, ws[0]);
    }
  }

  lemma ClearLeaves(s: Joint, f: FutureId)
    requires JointInv(s) && InSlice(s.w) && CanDo(s, Clear)
    ensures FutureIsQueues(Do(s, Clear), f)
  {
    ClearCanDo(s);
    assert FutureIsQueues(s, f);
    if Made(s.q, f) {
      CancelsRun(s.w, s.q.line.waiters, f);
      if f in s.q.line.waiters {
        var k :| 0 <= k < |s.q.line.waiters| && s.q.line.waiters[k] == f;
        WaitingIsUnresolved(s, k);
      } else if f in s.q.gets {
        ServedOrWaiting(s.q, f);
      }
    }
  }

  lemma ClearKeeps(s: Joint)
    requires JointInv(s) && InSlice(s.w)
    ensures CanDo(s, Clear) && JointInv(Do(s, Clear))
  {
    ClearCanDo(s);
    ActsKeepInv(s.w, Acts(s, Clear));
    LineKeeps(s.q, Q.OpClear);
    forall f: FutureId ensures FutureIsQueues(Do(s, Clear), f) { ClearLeaves(s, f); }
  }

  // ------------------------------------------------------- runs

  lemma JointStep(s: Joint, a: QueueAct)
    requires JointInv(s) && CanDo(s, a)
    ensures JointInv(Do(s, a))
  {
    match a
    case Other(b) => OtherKeeps(s, b);
    case Put(v) => PutKeeps(s, v);
    case Get => GetKeeps(s);
    case Clear => ClearKeeps(s);
  }

  /** A task in its slice can always put, get and clear: the queue never breaks the rule that
      a future is resolved once. */
  lemma QueueKeepsTheRules(s: Joint, a: QueueAct)
    requires JointInv(s) && InSlice(s.w) && !a.Other?
    ensures CanDo(s, a)
  {
    match a
    case Put(v) => PutKeeps(s, v);
    case Get => GetKeeps(s);
    case Clear => ClearKeeps(s);
  }

  predicate CanDoAll(s: Joint, acts: seq<QueueAct>)
    decreases |acts|
  {
    acts == [] || (CanDo(s, acts[0]) && CanDoAll(Do(s, acts[0]), acts[1..]))
  }

  function DoAll(s: Joint, acts: seq<QueueAct>): Joint
    requires CanDoAll(s, acts)
    decreases |acts|
  {
    if acts == [] then s else DoAll(Do(s, acts[0]), acts[1..])
  }

  lemma {:induction false} JointRun(s: Joint, acts: seq<QueueAct>)
    requires JointInv(s) && CanDoAll(s, acts)
    ensures JointInv(DoAll(s, acts))
    decreases |acts|
  {
    if acts != [] {
      JointStep(s, acts[0]);
      JointRun(Do(s, acts[0]), acts[1..]);
    }
  }

  /** A run with a queue is a run of the machine, so what holds for all of those holds for it. */
  lemma {:induction false} JointRunIsRun(s: Joint, acts: seq<QueueAct>) returns (flat: seq<Act>)
    requires CanDoAll(s, acts)
    ensures AllowedRun(s.w, flat) && Run(s.w, flat) == DoAll(s, acts).w
    decreases |acts|
  {
    if acts == [] {
      flat := [];
    } else {
      var rest := JointRunIsRun(Do(s, acts[0]), acts[1..]);
      RunConcat(s.w, Acts(s, acts[0]), rest);
      flat := Acts(s, acts[0]) + rest;
    }
  }

  /** In every run with a queue: since its last `clear`, an `await` on the future of get i has
      returned put i or has not returned, whichever came first and whoever waited; once both
      are there the future holds put i. An `await` on a future that a `clear` cancelled threw. */
  lemma AwaitedGetReturnsItsPut(w: World, acts: seq<QueueAct>, r: AwaitRecord, i: nat)
    requires Initial(w) && CanDoAll(Joint(w, Q.Empty()), acts)
    ensures var u := DoAll(Joint(w, Q.Empty()), acts); var puts, gets := u.q.puts, u.q.gets;
      && (r in u.w.hist.awaits && i < |gets| && r.future == gets[i] ==> i < |puts| && r.outcome == Returned(puts[i]))
      && (r in u.w.hist.awaits && r.future in u.q.cancelled ==> r.outcome.ThrewCancelled?)
      && (i < |gets| && i < |puts| ==>
           gets[i] < |u.w.futures| && u.w.futures[gets[i]].completed && u.w.futures[gets[i]].value == puts[i])
  {
    JointBegins(w);
    JointRun(Joint(w, Q.Empty()), acts);
    var u := DoAll(Joint(w, Q.Empty()), acts);
    if r in u.w.hist.awaits {
      var k :| 0 <= k < |u.w.hist.awaits| && u.w.hist.awaits[k] == r;
      assert RecordOk(u.w, r);
      assert FutureIsQueues(u, r.future);
    }
    if i < |u.q.gets| { assert FutureIsQueues(u, u.q.gets[i]); }
  }
}
