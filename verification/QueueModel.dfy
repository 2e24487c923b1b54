/** The message queue as a value: elements nobody has taken, and futures nobody has served.
    `F` names a future. */
module QueueModel {
  import opened Options

  datatype Line<T, F> = Line(queue: seq<T>, waiters: seq<F>)

  /** A future that an operation completes, and with what. */
  datatype Delivery<T, F> = Delivery(to: F, value: T)

  /** `put`: the element goes to the end; the first waiter gets the first element. */
  function Put<T, F>(l: Line<T, F>, v: T): (Line<T, F>, Option<Delivery<T, F>>) {
    var queue := l.queue + [v];
    if l.waiters == [] then (Line(queue, []), None)
    else (Line(queue[1..], l.waiters[1..]), Some(Delivery(l.waiters[0], queue[0])))
  }

  /** `get` with the new future `f`: served at once if there is an element and nobody waits. */
  function Get<T, F>(l: Line<T, F>, f: F): (Line<T, F>, Option<Delivery<T, F>>) {
    if l.queue != [] && l.waiters == [] then (Line(l.queue[1..], []), Some(Delivery(f, l.queue[0])))
    else (Line(l.queue, l.waiters + [f]), None)
  }

  // ------------------------------------------------------- runs

  datatype Op<T, F> = OpPut(v: T) | OpGet(f: F) | OpClear

  /** A queue with all it has delivered, and what was put and asked for since the last `clear`. */
  datatype State<T, !F> = State(line: Line<T, F>, delivered: map<F, T>, cancelled: set<F>, puts: seq<T>, gets: seq<F>)

  function Record<T, F>(delivered: map<F, T>, d: Option<Delivery<T, F>>): map<F, T> {
    if d.None? then delivered else delivered[d.value.to := d.value.value]
  }

  function Apply<T, F>(s: State<T, F>, op: Op<T, F>): State<T, F> {
    match op
    case OpPut(v) =>
      var r := Put(s.line, v);
      s.(line := r.0, delivered := Record(s.delivered, r.1), puts := s.puts + [v])
    case OpGet(f) =>
      var r := Get(s.line, f);
      s.(line := r.0, delivered := Record(s.delivered, r.1), gets := s.gets + [f])
    case OpClear =>
      State(Line([], []), s.delivered, s.cancelled + (set f | f in s.line.waiters), [], [])
  }

  function ApplyAll<T, F>(s: State<T, F>, ops: seq<Op<T, F>>): State<T, F>
    decreases |ops|
  {
    if ops == [] then s else ApplyAll(Apply(s, ops[0]), ops[1..])
  }

  /** Each `get` makes a future of its own. */
  predicate FreshGets<T, F(==)>(ops: seq<Op<T, F>>) {
    forall i, j :: 0 <= i < j < |ops| && ops[i].OpGet? && ops[j].OpGet? ==> ops[i].f != ops[j].f
  }

  function Min(a: nat, b: nat): nat {
    if a < b then a else b
  }

  /** First come, first served: get i has put i, the queue is the unmatched puts and the
      waiters are the unmatched gets. */
  ghost predicate Matched<T, F>(s: State<T, F>) {
    var m := Min(|s.puts|, |s.gets|);
    && s.line.queue == s.puts[m..]
    && s.line.waiters == s.gets[m..]
    && (forall i :: 0 <= i < m ==> s.gets[i] in s.delivered && s.delivered[s.gets[i]] == s.puts[i])
    && (forall i :: m <= i < |s.gets| ==> s.gets[i] !in s.delivered)
  }

  ghost predicate Distinct<F>(fs: seq<F>) {
    forall i, j :: 0 <= i < j < |fs| ==> fs[i] != fs[j]
  }

  /** No future that a run has still to make is known already. */
  ghost predicate Unused<T, F>(s: State<T, F>, ops: seq<Op<T, F>>) {
    forall k :: 0 <= k < |ops| && ops[k].OpGet? ==>
      ops[k].f !in s.delivered && ops[k].f !in s.gets && ops[k].f !in s.cancelled
  }

  /** A cancelled future was never served. */
  ghost predicate Separate<T, F>(s: State<T, F>) {
    forall f :: f in s.cancelled ==> f !in s.delivered && f !in s.gets
  }

  lemma PutMatches<T, F>(s: State<T, F>, v: T)
    requires Matched(s) && Distinct(s.gets)
    ensures Matched(Apply(s, OpPut(v)))
  {
    var u := Apply(s, OpPut(v));
    var m := Min(|s.puts|, |s.gets|);
    if s.line.waiters == [] {
      assert u.line.queue == u.puts[m..];
    } else {
      assert s.line.queue == [] && m == |s.puts|;
      assert s.line.waiters[0] == s.gets[m];
      assert (s.line.queue + [v])[0] == v;
      assert u.line.waiters == u.gets[m + 1..];
      assert u.line.queue == u.puts[m + 1..];
    }
  }

  lemma GetMatches<T, F>(s: State<T, F>, f: F)
    requires Matched(s) && f !in s.gets && f !in s.delivered
    ensures Matched(Apply(s, OpGet(f)))
  {
    var u := Apply(s, OpGet(f));
    var m := Min(|s.puts|, |s.gets|);
    if s.line.queue != [] && s.line.waiters == [] {
      assert m == |s.gets| && s.line.queue[0] == s.puts[m];
      assert u.line.queue == u.puts[m + 1..];
    } else {
      assert u.line.waiters == u.gets[m..];
    }
  }

  lemma NextSeparate<T, F>(s: State<T, F>, op: Op<T, F>)
    requires Matched(s) && Distinct(s.gets) && Separate(s)
    requires op.OpGet? ==> op.f !in s.cancelled
    ensures Separate(Apply(s, op))
  {
    if s.line.waiters != [] { assert s.line.waiters[0] in s.gets; }
    forall f | f in s.line.waiters ensures f !in s.delivered {
      var k :| 0 <= k < |s.line.waiters| && s.line.waiters[k] == f;
      assert s.gets[Min(|s.puts|, |s.gets|) + k] == f;
    }
  }

  lemma NextUnused<T, F>(s: State<T, F>, ops: seq<Op<T, F>>)
    requires ops != [] && Matched(s) && Distinct(s.gets) && Unused(s, ops) && FreshGets(ops)
    ensures Unused(Apply(s, ops[0]), ops[1..]) && Distinct(Apply(s, ops[0]).gets)
  {
    var u := Apply(s, ops[0]);
    assert forall f :: f in s.line.waiters ==> f in s.gets;
    forall k | 0 <= k < |ops[1..]| && ops[1..][k].OpGet?
      ensures ops[1..][k].f !in u.delivered && ops[1..][k].f !in u.gets && ops[1..][k].f !in u.cancelled
    {
      assert ops[1..][k] == ops[k + 1];
    }
  }

  lemma {:induction false} AllMatch<T, F>(s: State<T, F>, ops: seq<Op<T, F>>)
    requires Matched(s) && Distinct(s.gets) && Unused(s, ops) && FreshGets(ops) && Separate(s)
    ensures Matched(ApplyAll(s, ops)) && Separate(ApplyAll(s, ops))
    decreases |ops|
  {
    if ops != [] {
      match ops[0] {
        case OpPut(v) => PutMatches(s, v);
        case OpGet(f) => GetMatches(s, f);
        case OpClear =>
      }
      NextSeparate(s, ops[0]);
      NextUnused(s, ops);
      assert forall k :: 0 <= k < |ops| - 1 ==> ops[1..][k] == ops[k + 1];
      AllMatch(Apply(s, ops[0]), ops[1..]);
    }
  }

  function Empty<T, F>(): State<T, F> {
    State(Line([], []), map[], {}, [], [])
  }

  /** In every run of puts, gets and clears: since the last clear get i holds put i, the queue
      holds exactly the unmatched puts and the waiters are exactly the unmatched gets, so
      elements and waiters are never stuck beside each other; a future cancelled by a
      clear was never served. */
  lemma QueueIsFifo<T, F>(ops: seq<Op<T, F>>)
    requires FreshGets(ops)
    ensures var s := ApplyAll(Empty<T, F>(), ops);
      && Matched(s)
      && (s.line.queue == [] || s.line.waiters == [])
      && (forall f :: f in s.cancelled ==> f !in s.delivered)
  {
    AllMatch(Empty<T, F>(), ops);
  }
}
