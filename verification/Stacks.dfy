/** The pool of task stacks: taken by a task's constructor, given back by its destructor, and
    never returned to the system in between. */
module Stacks {
  type Ptr = nat
  type TaskId = int

  datatype Pool = Pool(free: map<Ptr, nat>, used: map<Ptr, nat>)

  predicate HasFree(p: Pool, size: nat) {
    exists q :: q in p.free && p.free[q] == size
  }

  /** The addresses `alloc` may return: any free stack of the size, in the order the hash map
      happens to have, or one new to the pool if there is none. */
  predicate MayAlloc(p: Pool, size: nat, ptr: Ptr) {
    if HasFree(p, size) then ptr in p.free && p.free[ptr] == size
    else ptr !in p.free && ptr !in p.used
  }

  function Alloc(p: Pool, size: nat, ptr: Ptr): Pool {
    Pool(p.free - {ptr}, p.used[ptr := size])
  }

  /** Freeing an address that is not in use records it as free with size 0. */
  function Free(p: Pool, ptr: Ptr): Pool {
    Pool(p.free[ptr := if ptr in p.used then p.used[ptr] else 0], p.used - {ptr})
  }

  class StackPool {
    var free: map<Ptr, nat>
    var used: map<Ptr, nat>

    ghost function View(): Pool
      reads this
    {
      Pool(free, used)
    }

    constructor ()
      ensures View() == Pool(map[], map[])
    {
      free, used := map[], map[];
    }

    /** `unused` is what `new` would return. */
    method AllocStack(size: nat, unused: Ptr) returns (ptr: Ptr)
      requires unused !in free && unused !in used
      modifies this
      ensures MayAlloc(old(View()), size, ptr)
      ensures View() == Alloc(old(View()), size, ptr)
    {
      var found := false;
      ptr := unused;
      var rest := free.Keys;
      while rest != {} && !found
        invariant free == old(free) && used == old(used) && rest <= free.Keys
        invariant found ==> ptr in free && free[ptr] == size
        invariant !found ==> ptr == unused && forall q :: q in free && q !in rest ==> free[q] != size
        decreases |rest|
      {
        var q :| q in rest;
        if free[q] == size {
          ptr, found := q, true;
        }
        rest := rest - {q};
      }
      free := free - {ptr};
      used := used[ptr := size];
    }

    method FreeStack(ptr: Ptr)
      modifies this
      ensures View() == Free(old(View()), ptr)
    {
      var size := if ptr in used then used[ptr] else 0;
      used := used - {ptr};
      free := free[ptr := size];
    }
  }

  // ------------------------------------------------------- tasks and their stacks

  /** Tasks are created with a stack of some size and destroyed; `ptr` is the address `alloc` picked. */
  datatype Act = Create(task: TaskId, size: nat, ptr: Ptr) | Destroy(task: TaskId)

  datatype State = State(pool: Pool, stackOf: map<TaskId, Ptr>)

  predicate Allowed(s: State, a: Act) {
    match a
    case Create(t, size, ptr) => t !in s.stackOf && MayAlloc(s.pool, size, ptr)
    case Destroy(t) => t in s.stackOf
  }

  function Step(s: State, a: Act): State
    requires Allowed(s, a)
  {
    match a
    case Create(t, size, ptr) => State(Alloc(s.pool, size, ptr), s.stackOf[t := ptr])
    case Destroy(t) => State(Free(s.pool, s.stackOf[t]), s.stackOf - {t})
  }

  predicate AllowedRun(s: State, acts: seq<Act>)
    decreases |acts|
  {
    acts == [] || (Allowed(s, acts[0]) && AllowedRun(Step(s, acts[0]), acts[1..]))
  }

  function Run(s: State, acts: seq<Act>): State
    requires AllowedRun(s, acts)
    decreases |acts|
  {
    if acts == [] then s else Run(Step(s, acts[0]), acts[1..])
  }

  const EMPTY := State(Pool(map[], map[]), map[])

  /** The stacks in use are those of the live tasks, one each; none of them is free. */
  ghost predicate Exclusive(s: State) {
    && (forall q :: !(q in s.pool.free && q in s.pool.used))
    && (forall t :: t in s.stackOf ==> s.stackOf[t] in s.pool.used)
    && (forall q :: q in s.pool.used ==> exists t :: t in s.stackOf && s.stackOf[t] == q)
    && (forall t, u :: t in s.stackOf && u in s.stackOf && t != u ==> s.stackOf[t] != s.stackOf[u])
  }

  lemma StepKeepsExclusive(s: State, a: Act)
    requires Exclusive(s) && Allowed(s, a)
    ensures Exclusive(Step(s, a))
  {
    var n := Step(s, a);
    forall q | q in n.pool.used ensures exists t :: t in n.stackOf && n.stackOf[t] == q {
      if a.Create? && q == a.ptr {
        assert n.stackOf[a.task] == q;
      } else {
        var t :| t in s.stackOf && s.stackOf[t] == q;
        assert t in n.stackOf && n.stackOf[t] == q;
      }
    }
  }

  lemma {:induction false} RunKeepsExclusive(s: State, acts: seq<Act>)
    requires Exclusive(s) && AllowedRun(s, acts)
    ensures Exclusive(Run(s, acts))
    decreases |acts|
  {
    if acts != [] {
      StepKeepsExclusive(s, acts[0]);
      RunKeepsExclusive(Step(s, acts[0]), acts[1..]);
    }
  }

  /** No two live tasks ever share a stack, and a free stack belongs to nobody. */
  lemma StacksAreExclusive(acts: seq<Act>)
    requires AllowedRun(EMPTY, acts)
    ensures var s := Run(EMPTY, acts);
      && (forall t, u :: t in s.stackOf && u in s.stackOf && t != u ==> s.stackOf[t] != s.stackOf[u])
      && (forall t :: t in s.stackOf ==> s.stackOf[t] in s.pool.used && s.stackOf[t] !in s.pool.free)
  {
    RunKeepsExclusive(EMPTY, acts);
  }

  // ------------------------------------------------------- no more stacks than the peak

  function OfSize(m: map<Ptr, nat>, size: nat): set<Ptr> {
    set q | q in m && m[q] == size
  }

  function InUse(s: State, size: nat): nat {
    |OfSize(s.pool.used, size)|
  }

  /** All the stacks of a size that were ever obtained from the system. */
  function Obtained(s: State, size: nat): nat {
    |OfSize(s.pool.free, size)| + |OfSize(s.pool.used, size)|
  }

  /** The most stacks of a size that were in use at once. */
  function Peak(s: State, acts: seq<Act>, size: nat): nat
    requires AllowedRun(s, acts)
    decreases |acts|
  {
    if acts == [] then InUse(s, size)
    else
      var later := Peak(Step(s, acts[0]), acts[1..], size);
      if InUse(s, size) > later then InUse(s, size) else later
  }

  lemma PeakAtLeast(s: State, acts: seq<Act>, size: nat)
    requires AllowedRun(s, acts)
    ensures InUse(s, size) <= Peak(s, acts, size)
  {}

  lemma OfSizeAdd(m: map<Ptr, nat>, q: Ptr, z: nat, size: nat)
    requires q !in m
    ensures |OfSize(m[q := z], size)| == |OfSize(m, size)| + if z == size then 1 else 0
  {
    assert OfSize(m[q := z], size) == OfSize(m, size) + if z == size then {q} else {};
  }

  lemma OfSizeRemove(m: map<Ptr, nat>, q: Ptr, size: nat)
    ensures |OfSize(m - {q}, size)| == |OfSize(m, size)| - if q in m && m[q] == size then 1 else 0
  {
    assert OfSize(m - {q}, size) == OfSize(m, size) - {q};
    assert q in m && m[q] == size <==> q in OfSize(m, size);
  }

  lemma AllocCounts(p: Pool, z: nat, ptr: Ptr, size: nat)
    requires MayAlloc(p, z, ptr) && ptr !in p.used
    ensures var n := Alloc(p, z, ptr);
      && |OfSize(n.used, size)| == |OfSize(p.used, size)| + (if z == size then 1 else 0)
      && |OfSize(n.free, size)| == |OfSize(p.free, size)| - (if z == size && HasFree(p, z) then 1 else 0)
  {
    OfSizeAdd(p.used, ptr, z, size);
    OfSizeRemove(p.free, ptr, size);
  }

  lemma FreeCounts(p: Pool, ptr: Ptr, size: nat)
    requires ptr in p.used && ptr !in p.free
    ensures var n := Free(p, ptr); var d := if p.used[ptr] == size then 1 else 0;
      |OfSize(n.used, size)| == |OfSize(p.used, size)| - d && |OfSize(n.free, size)| == |OfSize(p.free, size)| + d
  {
    OfSizeAdd(p.free, ptr, p.used[ptr], size);
    OfSizeRemove(p.used, ptr, size);
  }

  /** A new stack is obtained only when all stacks of its size are in use. */
  lemma ObtainedStep(s: State, a: Act, size: nat)
    requires Exclusive(s) && Allowed(s, a)
    ensures var n := Step(s, a);
      && (Obtained(n, size) == Obtained(s, size) ||
          (Obtained(n, size) == Obtained(s, size) + 1 && InUse(n, size) == Obtained(n, size)))
      && InUse(n, size) <= Obtained(n, size)
  {
    match a
    case Create(t, z, ptr) =>
      AllocCounts(s.pool, z, ptr, size);
      if z == size && !HasFree(s.pool, size) {
        assert OfSize(s.pool.free, size) == {};
      }
    case Destroy(t) => FreeCounts(s.pool, s.stackOf[t], size);
  }

  lemma {:induction false} ObtainedRun(s: State, acts: seq<Act>, size: nat)
    requires Exclusive(s) && AllowedRun(s, acts)
    ensures Obtained(Run(s, acts), size) ==
      if Peak(s, acts, size) > Obtained(s, size) then Peak(s, acts, size) else Obtained(s, size)
    decreases |acts|
  {
    if acts != [] {
      ObtainedStep(s, acts[0], size);
      StepKeepsExclusive(s, acts[0]);
      ObtainedRun(Step(s, acts[0]), acts[1..], size);
      PeakAtLeast(Step(s, acts[0]), acts[1..], size);
    }
  }

  /** For each size, the stacks ever obtained are as many as were in use at the peak. */
  lemma StacksArePeakOptimal(acts: seq<Act>, size: nat)
    requires AllowedRun(EMPTY, acts)
    ensures Obtained(Run(EMPTY, acts), size) == Peak(EMPTY, acts, size)
  {
    ObtainedRun(EMPTY, acts, size);
    assert OfSize(EMPTY.pool.free, size) == {};
    assert OfSize(EMPTY.pool.used, size) == {};
  }
}
