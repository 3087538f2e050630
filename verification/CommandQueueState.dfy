/**
 * The bounded cancellable lane (apps/browser-extension/src/command-queue.ts) as a state and its
 * atomic steps.  Each `run` call is numbered by its position in `jobs`; `settled` counts how often
 * its promise was resolved or rejected.
 */
module CommandQueueState {
  type Id = nat

  datatype Result = Success | Failure
  /**
   * `Taken` is shifted off `waiting` but not started: `start` is a microtask.  `Ending` is an operation
   * whose promise has settled while `start` still awaits it.
   */
  datatype Phase = Refused | Waiting | Taken | Running | Ending(result: Result) | Cancelled | Done(result: Result)
  /** `guarded` operations end with `check()`, as every relay command does (background.ts). */
  datatype Job = Job(generation: nat, guarded: bool, phase: Phase, begun: bool)

  datatype Queue = Queue(
    limit: nat,
    waiting: seq<Id>,
    active: bool,
    generation: nat,
    jobs: seq<Job>,
    taken: seq<Id>,          // the order in which jobs were shifted off
    settled: multiset<Id>)

  function New(limit: nat): Queue {
    Queue(limit, [], false, 0, [], [], multiset{})
  }

  /** `waiting` holds jobs. */
  predicate InRange(q: Queue) {
    forall k | 0 <= k < |q.waiting| :: q.waiting[k] < |q.jobs|
  }

  function SetPhase(jobs: seq<Job>, i: Id, phase: Phase): seq<Job>
    requires i < |jobs|
  {
    jobs[i := jobs[i].(phase := phase)]
  }

  /** `drain`. */
  function Drain(q: Queue): Queue
    requires InRange(q)
  {
    if q.active || q.waiting == [] then q
    else
      var i := q.waiting[0];
      q.(waiting := q.waiting[1..], active := true, taken := q.taken + [i], jobs := SetPhase(q.jobs, i, Taken))
  }

  /** `run`. */
  function Run(q: Queue, guarded: bool): Queue
    requires InRange(q)
  {
    var i := |q.jobs|;
    if |q.waiting| + (if q.active then 1 else 0) >= q.limit
    then q.(jobs := q.jobs + [Job(q.generation, guarded, Refused, false)], settled := q.settled + multiset{i})
    else Drain(q.(jobs := q.jobs + [Job(q.generation, guarded, Waiting, false)], waiting := q.waiting + [i]))
  }

  function CancelAll(jobs: seq<Job>, ids: seq<Id>): seq<Job> {
    seq(|jobs|, i requires 0 <= i < |jobs| => if i in ids then jobs[i].(phase := Cancelled) else jobs[i])
  }

  /** `cancel`: the active job, if any, keeps the lane. */
  function Cancel(q: Queue): Queue {
    q.(generation := q.generation + 1, waiting := [], jobs := CancelAll(q.jobs, q.waiting), settled := q.settled + multiset(q.waiting))
  }

  /** The `finally` of `start`. */
  function Settle(q: Queue, i: Id, result: Result): Queue
    requires i < |q.jobs| && InRange(q)
  {
    Drain(q.(jobs := SetPhase(q.jobs, i, Done(result)), settled := q.settled + multiset{i}, active := false))
  }

  /** `start`: `check()`, then the operation's body. */
  function Start(q: Queue, i: Id): Queue
    requires i < |q.jobs| && InRange(q)
  {
    if q.jobs[i].generation != q.generation then Settle(q, i, Failure)
    else q.(jobs := q.jobs[i := q.jobs[i].(phase := Running, begun := true)])
  }

  /** How an operation that ends now settles: a guarded one checks the generation last. */
  function ResultOf(q: Queue, i: Id, threw: bool): Result
    requires i < |q.jobs|
  {
    if threw || (q.jobs[i].guarded && q.jobs[i].generation != q.generation) then Failure else Success
  }

  /** The operation's promise settles; `start` goes on in a later microtask. */
  function End(q: Queue, i: Id, threw: bool): Queue
    requires i < |q.jobs|
  {
    q.(jobs := SetPhase(q.jobs, i, Ending(ResultOf(q, i, threw))))
  }

  datatype Event = Submitted(guarded: bool) | CancelCalled | Started(id: Id) | Ended(id: Id, threw: bool) | Continued(id: Id)

  function Step(q: Queue, e: Event): Queue {
    if !InRange(q) then q
    else match e
      case Submitted(guarded) => Run(q, guarded)
      case CancelCalled => Cancel(q)
      case Started(i) => if i < |q.jobs| && q.jobs[i].phase.Taken? then Start(q, i) else q
      case Ended(i, threw) => if i < |q.jobs| && q.jobs[i].phase.Running? then End(q, i, threw) else q
      case Continued(i) => if i < |q.jobs| && q.jobs[i].phase.Ending? then Settle(q, i, q.jobs[i].phase.result) else q
  }

  function Exec(q: Queue, es: seq<Event>): Queue
    decreases |es|
  {
    if es == [] then q else Exec(Step(q, es[0]), es[1..])
  }
}
