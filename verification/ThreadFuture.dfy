/** A future completed by a pool thread, as `to_thread` does it, while tasks of the loop await
    it: `await` tests, registers and blocks in separate steps, and so does `complete`. */
module ThreadFuture {
  datatype Phase =
    | Before        // has not called await
    | Checked       // found the future not completed
    | Registered    // is in the waiter list
    | Blocked       // has given control away
    | Answered      // found the future completed

  datatype Completer = Idle | Stored | Notified

  datatype State = State(tasks: seq<Phase>, completer: Completer, waiters: seq<nat>, toWake: seq<nat>)

  datatype Act = Check(i: nat) | Register(i: nat) | Block(i: nat) | Store | Notify

  predicate Allowed(s: State, a: Act) {
    match a
    case Check(i) => i < |s.tasks| && s.tasks[i] == Before
    case Register(i) => i < |s.tasks| && s.tasks[i] == Checked
    case Block(i) => i < |s.tasks| && s.tasks[i] == Registered
    case Store => s.completer == Idle
    case Notify => s.completer == Stored
  }

  function Step(s: State, a: Act): State
    requires Allowed(s, a)
  {
    match a
    case Check(i) => s.(tasks := s.tasks[i := if s.completer == Idle then Checked else Answered])
    case Register(i) => s.(tasks := s.tasks[i := Registered], waiters := s.waiters + [i])
    case Block(i) => s.(tasks := s.tasks[i := Blocked])
    case Store => s.(completer := Stored)
    case Notify => s.(completer := Notified, toWake := s.toWake + s.waiters)
  }

  predicate AllowedRun(s: State, acts: seq<Act>)
    decreases |acts|
  {
    acts == [] || (Allowed(s, acts[0]) && AllowedRun(Step(s, acts[0]), acts[1..]))
  }

  function Run(s: State, acts: seq<Act>): State
    requires AllowedRun(s, acts)
    decreases |acts|
  {
    if acts == [] then s else Run(Step(s, acts[0]), acts[1..])
  }

  function Fresh(n: nat): State {
    State(seq(n, _ => Before), Idle, [], [])
  }

  /** Before the notification a task is in the list exactly when it has registered. */
  ghost predicate Listed(s: State) {
    && s.completer != Notified && s.toWake == []
    && forall i :: 0 <= i < |s.tasks| ==> (i in s.waiters <==> s.tasks[i] == Registered || s.tasks[i] == Blocked)
  }

  lemma {:induction false} ListedRun(s: State, acts: seq<Act>)
    requires Listed(s) && AllowedRun(s, acts) && Notify !in acts
    ensures Listed(Run(s, acts)) && |Run(s, acts).tasks| == |s.tasks|
    decreases |acts|
  {
    if acts != [] {
      assert acts[0] != Notify;
      ListedRun(Step(s, acts[0]), acts[1..]);
    }
  }

  /** After it, nobody is notified any more, and a task that had not checked yet is answered. */
  lemma {:induction false} AfterNotify(s: State, acts: seq<Act>, i: nat)
    requires s.completer == Notified && AllowedRun(s, acts) && i < |s.tasks|
    ensures var u := Run(s, acts);
      && |u.tasks| == |s.tasks| && u.toWake == s.toWake
      && (u.tasks[i] == Blocked ==> s.tasks[i] == Checked || s.tasks[i] == Registered || s.tasks[i] == Blocked)
    decreases |acts|
  {
    if acts != [] {
      AfterNotify(Step(s, acts[0]), acts[1..], i);
    }
  }

  /** In every interleaving, a task that ends up blocked after the completion is left asleep, with
      no wake-up under way, exactly when it had found the future not completed and had not
      registered yet at the moment the waiters were notified. */
  lemma CompletionMissesCheckedTask(n: nat, before: seq<Act>, after: seq<Act>, i: nat)
    requires i < n && Notify !in before
    requires AllowedRun(Fresh(n), before) && Allowed(Run(Fresh(n), before), Notify)
    requires AllowedRun(Step(Run(Fresh(n), before), Notify), after)
    ensures var s := Run(Fresh(n), before); var u := Run(Step(s, Notify), after);
      |s.tasks| == |u.tasks| == n && (u.tasks[i] == Blocked ==> (i !in u.toWake <==> s.tasks[i] == Checked))
  {
    ListedRun(Fresh(n), before);
    var s := Run(Fresh(n), before);
    AfterNotify(Step(s, Notify), after, i);
    assert s.toWake + s.waiters == s.waiters;
  }

  /** It does happen: one task, checked before the store, registered after the notification. */
  lemma MissedCompletion()
    ensures AllowedRun(Fresh(1), [Check(0), Store, Notify, Register(0), Block(0)])
    ensures var u := Run(Fresh(1), [Check(0), Store, Notify, Register(0), Block(0)]);
      u.completer == Notified && u.tasks == [Blocked] && u.toWake == []
  {
    var s1 := Step(Fresh(1), Check(0));
    var s2 := Step(s1, Store);
    var s3 := Step(s2, Notify);
    var s4 := Step(s3, Register(0));
    var s5 := Step(s4, Block(0));
    assert AllowedRun(s5, []) && AllowedRun(s4, [Block(0)]);
    assert [Register(0), Block(0)][1..] == [Block(0)];
    assert AllowedRun(s3, [Register(0), Block(0)]) && Run(s3, [Register(0), Block(0)]) == s5;
    assert [Notify, Register(0), Block(0)][1..] == [Register(0), Block(0)];
    assert AllowedRun(s2, [Notify, Register(0), Block(0)]) && Run(s2, [Notify, Register(0), Block(0)]) == s5;
    assert [Store, Notify, Register(0), Block(0)][1..] == [Notify, Register(0), Block(0)];
    assert AllowedRun(s1, [Store, Notify, Register(0), Block(0)]);
    assert Run(s1, [Store, Notify, Register(0), Block(0)]) == s5;
    assert [Check(0), Store, Notify, Register(0), Block(0)][1..] == [Store, Notify, Register(0), Block(0)];
  }
}
