/** A future and the waiter list of an event as values, and what each operation makes of
    them. The classes of Runtime.dfy and Primitives.dfy are proved against these functions,
    and the machine of Machine.dfy is built from them. */
module FutureModel {
  import opened LoopModel

  datatype Future<T> = Future(completed: bool, cancelled: bool, waiters: seq<TaskId>, value: T) {
    predicate Resolved() { completed || cancelled }
  }

  datatype Outcome<T> = Returned(value: T) | ThrewCancelled | ThrewNotReady | ThrewFailed

  /** `complete`: the waiters are notified and stay in the list. */
  function AfterComplete<T>(f: Future<T>, v: T): Future<T> {
    f.(completed := true, value := v)
  }

  /** `cancel`: the waiters are notified and stay in the list. */
  function AfterCancel<T>(f: Future<T>): Future<T> {
    f.(cancelled := true)
  }

  function AfterSaveWaiter<T>(f: Future<T>, id: TaskId): Future<T> {
    f.(waiters := f.waiters + [id])
  }

  /** `get`: cancellation is reported first, even when there is a value. */
  function GetOutcome<T>(f: Future<T>): Outcome<T> {
    if f.cancelled then ThrewCancelled else if !f.completed then ThrewNotReady else Returned(f.value)
  }

  /** What `await` does once its `wait()` has returned. */
  function AwaitOutcome<T>(f: Future<T>): Outcome<T> {
    if f.cancelled then ThrewCancelled else if !f.completed then ThrewFailed else Returned(f.value)
  }

  /** What a notification takes out of an event's list, and what it leaves there. */
  datatype Notified = Notified(woken: seq<TaskId>, rest: seq<TaskId>)

  function Notifying(ids: seq<TaskId>, all: bool): (r: Notified)
    ensures r.woken + r.rest == ids
    ensures |r.woken| == if all then |ids| else if ids == [] then 0 else 1
  {
    if all then Notified(ids, [])
    else if ids == [] then Notified([], [])
    else Notified([ids[0]], ids[1..])
  }
}
