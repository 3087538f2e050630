/** What the command lane promises over every run. */
module CommandQueueTheorems {
  import opened CommandQueueState

  predicate InLane(phase: Phase) {
    phase.Taken? || phase.Running? || phase.Ending?
  }

  predicate Settled(phase: Phase) {
    phase.Refused? || phase.Cancelled? || phase.Done?
  }

  ghost predicate Ascending(s: seq<Id>) {
    forall i, j | 0 <= i < j < |s| :: s[i] < s[j]
  }

  /** `waiting` lists exactly the waiting jobs, in submission order. */
  ghost predicate WaitingOk(waiting: seq<Id>, jobs: seq<Job>) {
    && Ascending(waiting)
    && (forall k | 0 <= k < |waiting| :: waiting[k] < |jobs| && jobs[waiting[k]].phase.Waiting?)
    && (forall i | 0 <= i < |jobs| :: jobs[i].phase.Waiting? ==> i in waiting)
  }

  /** The lane holds one job while active and none otherwise; jobs wait only for an active one. */
  ghost predicate LaneOk(waiting: seq<Id>, active: bool, jobs: seq<Job>) {
    && (active <==> exists i :: 0 <= i < |jobs| && InLane(jobs[i].phase))
    && (forall i, j | 0 <= i < |jobs| && 0 <= j < |jobs| :: InLane(jobs[i].phase) && InLane(jobs[j].phase) ==> i == j)
    && (waiting != [] ==> active)
  }

  /** Jobs were taken in submission order, and exactly the uncancelled accepted ones that no longer wait. */
  ghost predicate TakenOk(waiting: seq<Id>, taken: seq<Id>, jobs: seq<Job>) {
    && Ascending(taken + waiting)
    && (forall i <- taken :: i < |jobs|)
    && (forall i | 0 <= i < |jobs| :: i in taken <==> InLane(jobs[i].phase) || jobs[i].phase.Done?)
  }

  ghost predicate SettledOk(settled: multiset<Id>, jobs: seq<Job>) {
    forall i: Id :: settled[i] == if i < |jobs| && Settled(jobs[i].phase) then 1 else 0
  }

  ghost predicate JobsOk(jobs: seq<Job>, generation: nat) {
    && (forall i | 0 <= i < |jobs| :: jobs[i].generation <= generation)
    && (forall i | 0 <= i < |jobs| :: jobs[i].begun ==> jobs[i].phase.Running? || jobs[i].phase.Ending? || jobs[i].phase.Done?)
    && (forall i | 0 <= i < |jobs| :: jobs[i].phase.Waiting? ==> jobs[i].generation == generation)
    && (forall i | 0 <= i < |jobs| :: jobs[i].phase.Running? || jobs[i].phase.Ending? || jobs[i].phase == Done(Success) ==> jobs[i].begun)
  }

  ghost predicate Inv(q: Queue) {
    && WaitingOk(q.waiting, q.jobs) && LaneOk(q.waiting, q.active, q.jobs) && TakenOk(q.waiting, q.taken, q.jobs)
    && SettledOk(q.settled, q.jobs) && JobsOk(q.jobs, q.generation)
    && |q.waiting| + (if q.active then 1 else 0) <= q.limit
  }

  /** Everything but that waiting work implies an active job. */
  ghost predicate Idle(q: Queue) {
    && WaitingOk(q.waiting, q.jobs) && TakenOk(q.waiting, q.taken, q.jobs) && SettledOk(q.settled, q.jobs) && JobsOk(q.jobs, q.generation)
    && |q.waiting| + (if q.active then 1 else 0) <= q.limit
    && (q.active ==> LaneOk(q.waiting, true, q.jobs))
    && (!q.active ==> LaneOk([], false, q.jobs))
  }

  lemma TakeWaiting(waiting: seq<Id>, jobs: seq<Job>)
    requires WaitingOk(waiting, jobs) && waiting != []
    ensures WaitingOk(waiting[1..], SetPhase(jobs, waiting[0], Taken))
  {
    assert waiting == [waiting[0]] + waiting[1..];
  }

  lemma TakeTaken(waiting: seq<Id>, taken: seq<Id>, jobs: seq<Job>)
    requires TakenOk(waiting, taken, jobs) && waiting != [] && waiting[0] < |jobs|
    ensures TakenOk(waiting[1..], taken + [waiting[0]], SetPhase(jobs, waiting[0], Taken))
  {
    var i := waiting[0];
    assert taken + [i] + waiting[1..] == taken + waiting;
    hide Ascending;
    assert forall k :: k in taken + [i] <==> k in taken || k == i;
  }

  lemma TakeLane(rest: seq<Id>, jobs: seq<Job>, i: Id)
    requires LaneOk([], false, jobs) && i < |jobs|
    ensures LaneOk(rest, true, SetPhase(jobs, i, Taken))
  {
    assert InLane(SetPhase(jobs, i, Taken)[i].phase);
  }

  lemma TakeRest(settled: multiset<Id>, jobs: seq<Job>, generation: nat, i: Id)
    requires SettledOk(settled, jobs) && JobsOk(jobs, generation) && i < |jobs| && jobs[i].phase.Waiting?
    ensures SettledOk(settled, SetPhase(jobs, i, Taken)) && JobsOk(SetPhase(jobs, i, Taken), generation)
  {
  }

  lemma DrainKeeps(q: Queue)
    requires Idle(q)
    ensures Inv(Drain(q))
  {
    assert InRange(q);
    if !q.active && q.waiting != [] {
      var i := q.waiting[0];
      TakeWaiting(q.waiting, q.jobs);
      TakeTaken(q.waiting, q.taken, q.jobs);
      TakeLane(q.waiting[1..], q.jobs, i);
      TakeRest(q.settled, q.jobs, q.generation, i);
      hide WaitingOk, LaneOk, TakenOk, SettledOk, JobsOk;
    }
  }

  lemma AscendingAppend(s: seq<Id>, x: Id)
    requires Ascending(s) && forall k <- s :: k < x
    ensures Ascending(s + [x])
  {
    forall i | 0 <= i < |s| ensures s[i] < x {
      assert s[i] in s;
    }
  }

  /** One more job, waiting or refused. */
  lemma JobArrives(q: Queue, j: Job)
    requires Inv(q) && j.generation == q.generation && !j.begun && (j.phase.Waiting? || j.phase.Refused?)
    requires |q.waiting| + (if q.active then 1 else 0) < q.limit || j.phase.Refused?
    ensures
      var i := |q.jobs|;
      Idle(if j.phase.Waiting? then q.(jobs := q.jobs + [j], waiting := q.waiting + [i])
           else q.(jobs := q.jobs + [j], settled := q.settled + multiset{i}))
  {
    var i := |q.jobs|;
    var jobs := q.jobs + [j];
    LaneGrows(q.waiting, q.active, q.jobs, j);
    if q.active {
      assert LaneOk(q.waiting + [i], true, jobs);
    } else {
      assert q.waiting == [];
    }
    forall k | k in q.taken + q.waiting ensures k < i {
      assert k in q.taken || k in q.waiting;
    }
    AscendingAppend(q.taken + q.waiting, i);
    AscendingAppend(q.waiting, i);
    assert q.taken + (q.waiting + [i]) == q.taken + q.waiting + [i];
    JobArrivesOk(q, j);
  }

  lemma JobArrivesOk(q: Queue, j: Job)
    requires Inv(q) && j.generation == q.generation && !j.begun && (j.phase.Waiting? || j.phase.Refused?)
    ensures JobsOk(q.jobs + [j], q.generation)
    ensures SettledOk(if j.phase.Refused? then q.settled + multiset{|q.jobs|} else q.settled, q.jobs + [j])
  {
  }

  lemma RunKeeps(q: Queue, guarded: bool)
    requires Inv(q)
    ensures Inv(Run(q, guarded))
  {
    var j := Job(q.generation, guarded, if |q.waiting| + (if q.active then 1 else 0) < q.limit then Waiting else Refused, false);
    JobArrives(q, j);
    hide WaitingOk, TakenOk, SettledOk, JobsOk, Drain;
    if j.phase.Waiting? {
      DrainKeeps(q.(jobs := q.jobs + [j], waiting := q.waiting + [|q.jobs|]));
    }
  }

  lemma LaneGrows(waiting: seq<Id>, active: bool, jobs: seq<Job>, j: Job)
    requires LaneOk(waiting, active, jobs) && !InLane(j.phase)
    ensures LaneOk(waiting, active, jobs + [j])
  {
    if active {
      var i :| 0 <= i < |jobs| && InLane(jobs[i].phase);
      assert InLane((jobs + [j])[i].phase);
    }
  }

  lemma CancelLane(waiting: seq<Id>, active: bool, jobs: seq<Job>)
    requires LaneOk(waiting, active, jobs) && WaitingOk(waiting, jobs)
    ensures LaneOk([], active, CancelAll(jobs, waiting)) && WaitingOk([], CancelAll(jobs, waiting))
  {
    var c := CancelAll(jobs, waiting);
    if active {
      var i :| 0 <= i < |jobs| && InLane(jobs[i].phase);
      assert InLane(c[i].phase);
    }
  }

  lemma PrefixAscends(a: seq<Id>, b: seq<Id>)
    requires Ascending(a + b)
    ensures Ascending(a)
  {
    forall i, j | 0 <= i < j < |a| ensures a[i] < a[j] {
      assert (a + b)[i] < (a + b)[j];
    }
  }

  lemma CancelTaken(waiting: seq<Id>, taken: seq<Id>, jobs: seq<Job>)
    requires TakenOk(waiting, taken, jobs) && WaitingOk(waiting, jobs)
    ensures TakenOk([], taken, CancelAll(jobs, waiting))
  {
    PrefixAscends(taken, waiting);
    assert taken + [] == taken;
    hide Ascending;
  }

  lemma CancelJobs(jobs: seq<Job>, waiting: seq<Id>, generation: nat)
    requires JobsOk(jobs, generation) && WaitingOk(waiting, jobs)
    ensures JobsOk(CancelAll(jobs, waiting), generation + 1)
  {
  }

  lemma CancelSettled(waiting: seq<Id>, settled: multiset<Id>, jobs: seq<Job>)
    requires WaitingOk(waiting, jobs) && SettledOk(settled, jobs)
    ensures SettledOk(settled + multiset(waiting), CancelAll(jobs, waiting))
  {
    OnceEach(waiting);
  }

  lemma CancelKeeps(q: Queue)
    requires Inv(q)
    ensures Inv(Cancel(q))
  {
    CancelLane(q.waiting, q.active, q.jobs);
    CancelTaken(q.waiting, q.taken, q.jobs);
    CancelSettled(q.waiting, q.settled, q.jobs);
    CancelJobs(q.jobs, q.waiting, q.generation);
    hide WaitingOk, LaneOk, TakenOk, SettledOk, JobsOk, CancelAll;
  }

  lemma OnceEach(s: seq<Id>)
    requires Ascending(s)
    ensures forall i: Id :: multiset(s)[i] == if i in s then 1 else 0
  {
    if s != [] {
      var n := |s| - 1;
      OnceEach(s[..n]);
      assert s == s[..n] + [s[n]];
      forall i: Id ensures multiset(s)[i] == if i in s then 1 else 0 {
        assert multiset(s)[i] == multiset(s[..n])[i] + multiset([s[n]])[i];
        if i in s[..n] { assert i < s[n]; }
      }
    }
  }

  lemma SettleKeeps(q: Queue, i: Id, result: Result)
    requires Inv(q) && i < |q.jobs| && InLane(q.jobs[i].phase) && (result.Success? ==> q.jobs[i].begun)
    ensures Inv(Settle(q, i, result))
  {
    var n := q.(jobs := SetPhase(q.jobs, i, Done(result)), settled := q.settled + multiset{i}, active := false);
    assert Idle(n);
    DrainKeeps(n);
  }

  /** The job in the lane moves on and stays in the lane. */
  lemma MoveKeeps(q: Queue, i: Id, j: Job)
    requires Inv(q) && i < |q.jobs| && InLane(q.jobs[i].phase) && InLane(j.phase) && j.generation == q.jobs[i].generation
    requires if j.phase.Taken? then !j.begun else j.begun
    ensures Inv(q.(jobs := q.jobs[i := j]))
  {
    var jobs := q.jobs[i := j];
    assert InLane(jobs[i].phase);
    MoveLane(q.waiting, q.active, q.jobs, i, j);
    MoveTaken(q.waiting, q.taken, q.jobs, i, j);
    hide LaneOk, TakenOk;
  }

  lemma MoveLane(waiting: seq<Id>, active: bool, jobs: seq<Job>, i: Id, j: Job)
    requires LaneOk(waiting, active, jobs) && i < |jobs| && InLane(jobs[i].phase) && InLane(j.phase)
    ensures LaneOk(waiting, active, jobs[i := j])
  {
    assert InLane(jobs[i := j][i].phase);
  }

  lemma MoveTaken(waiting: seq<Id>, taken: seq<Id>, jobs: seq<Job>, i: Id, j: Job)
    requires TakenOk(waiting, taken, jobs) && i < |jobs| && InLane(jobs[i].phase) && InLane(j.phase)
    ensures TakenOk(waiting, taken, jobs[i := j])
  {
    hide Ascending;
  }

  lemma BegunIn(q: Queue, i: Id)
    requires Inv(q) && i < |q.jobs|
    ensures InRange(q) && (q.jobs[i].phase.Running? || q.jobs[i].phase.Ending? ==> q.jobs[i].begun)
  {
    hide LaneOk, TakenOk, SettledOk;
  }

  lemma StepKeeps(q: Queue, e: Event)
    requires Inv(q)
    ensures Inv(Step(q, e))
  {
    hide Run, Cancel, Settle, Inv, InRange, ResultOf;
    match e {
      case Submitted(guarded) => RunKeeps(q, guarded);
      case CancelCalled => CancelKeeps(q);
      case Started(i) =>
        if i < |q.jobs| && q.jobs[i].phase.Taken? {
          BegunIn(q, i);
          if q.jobs[i].generation != q.generation {
            SettleKeeps(q, i, Failure);
          } else {
            MoveKeeps(q, i, q.jobs[i].(phase := Running, begun := true));
          }
        }
      case Ended(i, threw) =>
        if i < |q.jobs| && q.jobs[i].phase.Running? {
          BegunIn(q, i);
          MoveKeeps(q, i, q.jobs[i].(phase := Ending(ResultOf(q, i, threw))));
        }
      case Continued(i) =>
        if i < |q.jobs| && q.jobs[i].phase.Ending? {
          BegunIn(q, i);
          SettleKeeps(q, i, q.jobs[i].phase.result);
        }
    }
  }

  lemma {:induction false} ExecKeeps(q: Queue, es: seq<Event>)
    requires Inv(q)
    ensures Inv(Exec(q, es))
    decreases |es|
  {
    hide Inv, Step;
    if es != [] {
      StepKeeps(q, es[0]);
      ExecKeeps(Step(q, es[0]), es[1..]);
    }
  }

  lemma ReachableOk(limit: nat, es: seq<Event>)
    ensures Inv(Exec(New(limit), es))
  {
    hide Step;
    ExecKeeps(New(limit), es);
  }

  /**
   * In every reachable state: the lane is within its limit, waiting work has an active job in front
   * of it, at most one job is between being taken and being settled (also across `cancel`), and
   * every promise has been settled at most once, and exactly once when its job is finished.
   */
  lemma LaneIsSafe(limit: nat, es: seq<Event>)
    ensures
      var q := Exec(New(limit), es);
      && |q.waiting| + (if q.active then 1 else 0) <= q.limit
      && (q.waiting != [] ==> q.active)
      && (q.active <==> exists i :: 0 <= i < |q.jobs| && InLane(q.jobs[i].phase))
      && (forall i, j | 0 <= i < |q.jobs| && 0 <= j < |q.jobs| :: InLane(q.jobs[i].phase) && InLane(q.jobs[j].phase) ==> i == j)
      && (forall i | 0 <= i < |q.jobs| :: q.settled[i] == if Settled(q.jobs[i].phase) then 1 else 0)
      && (forall i: Id :: i >= |q.jobs| ==> q.settled[i] == 0)
  {
    hide Exec;
    ReachableOk(limit, es);
  }

  /**
   * First in, first out: the jobs taken so far followed by those waiting are exactly the accepted
   * jobs that were not cancelled while waiting, in submission order.
   */
  lemma FirstInFirstOut(limit: nat, es: seq<Event>)
    ensures
      var q := Exec(New(limit), es);
      && (forall i, j | 0 <= i < j < |q.taken + q.waiting| :: (q.taken + q.waiting)[i] < (q.taken + q.waiting)[j])
      && (forall i: Id :: i in q.taken + q.waiting <==> i < |q.jobs| && !q.jobs[i].phase.Refused? && !q.jobs[i].phase.Cancelled?)
  {
    hide Exec;
    ReachableOk(limit, es);
  }

  // ---------------------------------------------------------------- who is accepted, and who runs

  /** The lane has been left: whoever waits first has taken it, and everyone else is where they were. */
  ghost predicate PassedOn(q: Queue, n: Queue, left: Id) {
    && n.active == (q.waiting != []) && n.generation == q.generation && |n.jobs| == |q.jobs|
    && n.waiting == (if q.waiting == [] then [] else q.waiting[1..])
    && n.taken == q.taken + (if q.waiting == [] then [] else [q.waiting[0]])
    && forall k | 0 <= k < |q.jobs| && k != left ::
         n.jobs[k] == if q.waiting != [] && k == q.waiting[0] then q.jobs[k].(phase := Taken) else q.jobs[k]
  }

  /**
   * A submission is refused at once exactly if as many are waiting or active as the limit allows;
   * otherwise it takes the lane if that is free and waits last if not, in the generation in force.
   */
  lemma AcceptedExactlyWhen(limit: nat, es: seq<Event>, guarded: bool)
    ensures
      var q := Exec(New(limit), es);
      var n, i := Step(q, Submitted(guarded)), |q.jobs|;
      && |n.jobs| == i + 1 && n.jobs[..i] == q.jobs && n.generation == q.generation
      && n.jobs[i].generation == q.generation && n.jobs[i].guarded == guarded && !n.jobs[i].begun
      && (|q.waiting| + (if q.active then 1 else 0) >= limit ==>
            n.jobs[i].phase.Refused? && n.settled[i] == 1 && n.waiting == q.waiting && n.active == q.active)
      && (|q.waiting| + (if q.active then 1 else 0) < limit ==>
            n.jobs[i].phase == (if q.active then Waiting else Taken) && n.active && n.waiting == if q.active then q.waiting + [i] else [])
  {
    hide Exec, Inv;
    var q := Exec(New(limit), es);
    ReachableOk(limit, es);
    InvInRange(q);
    NobodyWaitsForNobody(q);
    SameLimit(limit, es);
  }

  lemma NobodyWaitsForNobody(q: Queue)
    requires Inv(q)
    ensures !q.active ==> q.waiting == []
    ensures q.settled[|q.jobs|] == 0
  {
  }

  lemma {:induction false} SameLimit(limit: nat, es: seq<Event>)
    ensures Exec(New(limit), es).limit == limit
  {
    LimitStays(New(limit), es);
  }

  lemma {:induction false} LimitStays(q: Queue, es: seq<Event>)
    ensures Exec(q, es).limit == q.limit
    decreases |es|
  {
    if es != [] {
      LimitStays(Step(q, es[0]), es[1..]);
    }
  }

  /**
   * A job that took the lane runs exactly if no `cancel` came since its submission; one that is stale
   * fails without having begun, and the lane passes to the next.
   */
  lemma RunsExactlyWhen(limit: nat, es: seq<Event>, i: Id)
    requires var q := Exec(New(limit), es); i < |q.jobs| && q.jobs[i].phase.Taken?
    ensures
      var q := Exec(New(limit), es);
      var n := Step(q, Started(i));
      && i < |n.jobs|
      && (q.jobs[i].generation == q.generation ==> n == q.(jobs := q.jobs[i := q.jobs[i].(phase := Running, begun := true)]))
      && (q.jobs[i].generation != q.generation ==> n.jobs[i] == q.jobs[i].(phase := Done(Failure)) && n.settled[i] == 1 && PassedOn(q, n, i))
  {
    hide Exec, Inv, Settle, PassedOn;
    var q := Exec(New(limit), es);
    ReachableOk(limit, es);
    InvInRange(q);
    StaleSettles(q, i, Failure);
  }

  lemma StaleSettles(q: Queue, i: Id, result: Result)
    requires Inv(q) && i < |q.jobs| && InLane(q.jobs[i].phase)
    ensures InRange(q) && i < |Settle(q, i, result).jobs| && Settle(q, i, result).jobs[i] == q.jobs[i].(phase := Done(result))
    ensures Settle(q, i, result).settled[i] == 1 && PassedOn(q, Settle(q, i, result), i)
  {
    WaitingPhase(q);
    assert q.settled[i] == 0;
  }

  /** When an operation has ended, its promise is settled with its result and the lane passes to the next. */
  lemma LanePassesOn(limit: nat, es: seq<Event>, i: Id)
    requires var q := Exec(New(limit), es); i < |q.jobs| && q.jobs[i].phase.Ending?
    ensures
      var q := Exec(New(limit), es);
      var n := Step(q, Continued(i));
      && i < |n.jobs| && n.jobs[i] == q.jobs[i].(phase := Done(q.jobs[i].phase.result)) && n.settled[i] == 1 && PassedOn(q, n, i)
  {
    hide Exec, Inv, Settle, PassedOn;
    var q := Exec(New(limit), es);
    ReachableOk(limit, es);
    InvInRange(q);
    StaleSettles(q, i, q.jobs[i].phase.result);
  }

  // ---------------------------------------------------------------- cancellation

  /** The operation has succeeded, reported or about to be. */
  predicate Succeeds(phase: Phase) {
    phase == Ending(Success) || phase == Done(Success)
  }

  /** What becomes of a job that was submitted before the last `cancel`. */
  ghost predicate Stale(j: Job, later: Job) {
    && later.generation == j.generation && later.guarded == j.guarded
    && (later.begun ==> j.begun)
    && (later.guarded && Succeeds(later.phase) ==> Succeeds(j.phase))
  }

  lemma DrainJobs(q: Queue)
    requires InRange(q)
    ensures
      var d := Drain(q);
      && |d.jobs| == |q.jobs| && d.generation == q.generation
      && forall i | 0 <= i < |q.jobs| :: d.jobs[i].(phase := q.jobs[i].phase) == q.jobs[i] && (d.jobs[i].phase == q.jobs[i].phase || d.jobs[i].phase.Taken?)
  {
  }

  lemma SettleStale(q: Queue, k: Id, result: Result, i: Id)
    requires InRange(q) && k < |q.jobs| && i < |q.jobs| && !Succeeds(q.jobs[k].phase) && result.Failure?
    ensures var n := Settle(q, k, result); i < |n.jobs| && n.generation == q.generation && Stale(q.jobs[i], n.jobs[i])
  {
    hide Drain;
    DrainJobs(q.(jobs := SetPhase(q.jobs, k, Done(result)), settled := q.settled + multiset{k}, active := false));
  }

  lemma ContinueStale(q: Queue, k: Id, i: Id)
    requires InRange(q) && k < |q.jobs| && i < |q.jobs| && q.jobs[k].phase.Ending?
    ensures var n := Settle(q, k, q.jobs[k].phase.result); i < |n.jobs| && n.generation == q.generation && Stale(q.jobs[i], n.jobs[i])
  {
    hide Drain;
    DrainJobs(q.(jobs := SetPhase(q.jobs, k, Done(q.jobs[k].phase.result)), settled := q.settled + multiset{k}, active := false));
  }

  lemma RunStale(q: Queue, guarded: bool, i: Id)
    requires InRange(q) && i < |q.jobs|
    ensures var n := Run(q, guarded); i < |n.jobs| && n.generation == q.generation && Stale(q.jobs[i], n.jobs[i])
  {
    hide Drain;
    DrainJobs(q.(jobs := q.jobs + [Job(q.generation, guarded, Waiting, false)], waiting := q.waiting + [|q.jobs|]));
  }

  lemma StaleStep(q: Queue, e: Event, i: Id)
    requires i < |q.jobs| && q.jobs[i].generation < q.generation
    ensures var n := Step(q, e); i < |n.jobs| && n.generation >= q.generation && Stale(q.jobs[i], n.jobs[i])
  {
    hide Settle, Run, InRange;
    if InRange(q) {
      match e {
        case Submitted(guarded) => RunStale(q, guarded, i);
        case CancelCalled =>
        case Started(k) => if k < |q.jobs| && q.jobs[k].phase.Taken? { SettleStale(q, k, Failure, i); }
        case Ended(k, threw) =>
        case Continued(k) => if k < |q.jobs| && q.jobs[k].phase.Ending? { ContinueStale(q, k, i); }
      }
    }
  }

  /**
   * Whatever happens after a `cancel`, a job submitted before it whose body had not begun never
   * begins, and no guarded job submitted before it succeeds, unless it had passed its last check.
   */
  lemma {:induction false} NothingStaleAfterCancel(q: Queue, es: seq<Event>, i: Id)
    requires i < |q.jobs| && q.jobs[i].generation < q.generation
    ensures i < |Exec(q, es).jobs| && Stale(q.jobs[i], Exec(q, es).jobs[i])
    decreases |es|
  {
    hide Step;
    if es != [] {
      StaleStep(q, es[0], i);
      NothingStaleAfterCancel(Step(q, es[0]), es[1..], i);
    }
  }

  /** `cancel` puts every job submitted before it behind: that is what makes it stale. */
  lemma CancelMakesStale(limit: nat, es: seq<Event>)
    ensures
      var q := Exec(New(limit), es);
      var c := Step(q, CancelCalled);
      && |c.jobs| == |q.jobs| && c.waiting == []
      && (forall i | 0 <= i < |c.jobs| :: c.jobs[i].generation < c.generation && !c.jobs[i].phase.Waiting?)
      && (forall i | 0 <= i < |c.jobs| :: q.jobs[i].phase.Waiting? ==> c.jobs[i].phase.Cancelled? && c.settled[i] == 1)
  {
    hide Exec;
    ReachableOk(limit, es);
    StepKeeps(Exec(New(limit), es), CancelCalled);
  }

  /** A settled operation is reported with its result, and only so. */
  ghost predicate Reported(j: Job, later: Job) {
    j.phase.Ending? ==> later.phase == j.phase || later.phase == Done(j.phase.result)
  }

  ghost predicate SameJob(j: Job, later: Job) {
    later.generation == j.generation && later.guarded == j.guarded && Reported(j, later) && (j.phase.Done? ==> later.phase == j.phase)
  }

  lemma WaitingPhase(q: Queue)
    requires Inv(q)
    ensures InRange(q) && forall k | 0 <= k < |q.waiting| :: q.jobs[q.waiting[k]].phase.Waiting?
  {
    hide LaneOk, TakenOk, SettledOk, JobsOk;
  }

  lemma DrainKeepsOthers(q: Queue)
    requires InRange(q) && forall k | 0 <= k < |q.waiting| :: q.waiting[k] < |q.jobs| && q.jobs[q.waiting[k]].phase.Waiting?
    ensures forall i | 0 <= i < |q.jobs| && !q.jobs[i].phase.Waiting? :: Drain(q).jobs[i] == q.jobs[i]
  {
  }

  lemma SettleKeepsOthers(q: Queue, k: Id, result: Result)
    requires Inv(q) && k < |q.jobs| && InLane(q.jobs[k].phase)
    ensures InRange(q) && |Settle(q, k, result).jobs| == |q.jobs| && Settle(q, k, result).jobs[k].phase == Done(result)
    ensures Settle(q, k, result).jobs[k].(phase := Done(result)) == q.jobs[k].(phase := Done(result))
    ensures forall i | 0 <= i < |q.jobs| && i != k && !q.jobs[i].phase.Waiting? :: Settle(q, k, result).jobs[i] == q.jobs[i]
  {
    WaitingPhase(q);
    hide Drain, Inv;
    DrainKeepsOthers(q.(jobs := SetPhase(q.jobs, k, Done(result)), settled := q.settled + multiset{k}, active := false));
  }

  lemma RunKeepsOthers(q: Queue, guarded: bool, i: Id)
    requires Inv(q) && InRange(q) && i < |q.jobs| && !q.jobs[i].phase.Waiting?
    ensures i < |Run(q, guarded).jobs| && Run(q, guarded).jobs[i] == q.jobs[i]
  {
    WaitingPhase(q);
    hide Drain, Inv;
    DrainKeepsOthers(q.(jobs := q.jobs + [Job(q.generation, guarded, Waiting, false)], waiting := q.waiting + [|q.jobs|]));
  }

  lemma CancelKeepsOthers(q: Queue, i: Id)
    requires Inv(q) && i < |q.jobs| && !q.jobs[i].phase.Waiting?
    ensures i < |Cancel(q).jobs| && Cancel(q).jobs[i] == q.jobs[i]
  {
    WaitingPhase(q);
    hide Inv;
  }

  lemma StartKeepsOthers(q: Queue, k: Id, i: Id)
    requires Inv(q) && InRange(q) && k < |q.jobs| && q.jobs[k].phase.Taken?
    requires i < |q.jobs| && i != k && !q.jobs[i].phase.Waiting?
    ensures i < |Start(q, k).jobs| && Start(q, k).jobs[i] == q.jobs[i]
  {
    hide Settle, Inv, InRange;
    SettleKeepsOthers(q, k, Failure);
  }

  lemma ContinueReports(q: Queue, k: Id, i: Id)
    requires Inv(q) && InRange(q) && k < |q.jobs| && q.jobs[k].phase.Ending? && i < |q.jobs| && !q.jobs[i].phase.Waiting?
    ensures
      var n := Settle(q, k, q.jobs[k].phase.result);
      i < |n.jobs| && if i == k then n.jobs[i] == q.jobs[i].(phase := Done(q.jobs[i].phase.result)) else n.jobs[i] == q.jobs[i]
  {
    hide Settle, Inv, InRange;
    SettleKeepsOthers(q, k, q.jobs[k].phase.result);
  }

  lemma SameStep(q: Queue, e: Event, i: Id)
    requires Inv(q) && i < |q.jobs| && (q.jobs[i].phase.Ending? || q.jobs[i].phase.Done?)
    ensures i < |Step(q, e).jobs| && SameJob(q.jobs[i], Step(q, e).jobs[i])
  {
    hide Run, Settle, Start, End, Inv, InRange, Cancel, SameJob;
    InvInRange(q);
    StaysTheSame(q.jobs[i]);
    match e {
      case Submitted(guarded) => RunKeepsOthers(q, guarded, i);
      case CancelCalled => CancelKeepsOthers(q, i);
      case Started(k) => if k < |q.jobs| && q.jobs[k].phase.Taken? { StartKeepsOthers(q, k, i); }
      case Ended(k, threw) => if k < |q.jobs| && q.jobs[k].phase.Running? { EndKeepsOthers(q, k, threw, i); }
      case Continued(k) => if k < |q.jobs| && q.jobs[k].phase.Ending? { ContinueReports(q, k, i); }
    }
  }

  lemma InvInRange(q: Queue)
    requires Inv(q)
    ensures InRange(q)
  {
  }

  lemma StaysTheSame(j: Job)
    ensures SameJob(j, j) && (j.phase.Ending? ==> SameJob(j, j.(phase := Done(j.phase.result))))
  {
  }

  lemma EndKeepsOthers(q: Queue, k: Id, threw: bool, i: Id)
    requires k < |q.jobs| && i < |q.jobs| && i != k
    ensures i < |End(q, k, threw).jobs| && End(q, k, threw).jobs[i] == q.jobs[i]
  {
    hide ResultOf;
  }

  lemma {:induction false} SameRun(q: Queue, es: seq<Event>, i: Id)
    requires Inv(q) && i < |q.jobs| && (q.jobs[i].phase.Ending? || q.jobs[i].phase.Done?)
    ensures i < |Exec(q, es).jobs| && SameJob(q.jobs[i], Exec(q, es).jobs[i])
    decreases |es|
  {
    hide Step, Inv;
    if es != [] {
      SameStep(q, es[0], i);
      StepKeeps(q, es[0]);
      SameRun(Step(q, es[0]), es[1..], i);
    }
  }

  /**
   * When an operation reports success: exactly if it did not throw and, where it ends with `check()`,
   * no `cancel` came between its submission and its end.  What comes after its end, a `cancel`
   * included, changes nothing: it is about to be reported so or has been.
   */
  lemma ReportsSuccessExactlyWhen(limit: nat, es: seq<Event>, i: Id, threw: bool, later: seq<Event>)
    requires var q := Exec(New(limit), es); i < |q.jobs| && q.jobs[i].phase.Running?
    ensures
      var q := Exec(New(limit), es);
      var ended := Step(q, Ended(i, threw));
      var q' := Exec(ended, later);
      && i < |q'.jobs| && (q'.jobs[i].phase.Ending? || q'.jobs[i].phase.Done?)
      && (q'.jobs[i].phase.result.Success? <==> !threw && (q.jobs[i].guarded ==> q.jobs[i].generation == q.generation))
      && Step(ended, Continued(i)).jobs[i].phase.Done?
  {
    hide Exec, Inv;
    var q := Exec(New(limit), es);
    ReachableOk(limit, es);
    WaitingPhase(q);
    var ended := Step(q, Ended(i, threw));
    StepKeeps(q, Ended(i, threw));
    SameRun(ended, later, i);
    hide Settle;
    SettleKeepsOthers(ended, i, ended.jobs[i].phase.result);
  }

  /** A running job stays running, and its own, until its operation ends. */
  lemma {:induction false} GenerationGrows(q: Queue, es: seq<Event>, i: Id)
    requires i < |q.jobs| && q.jobs[i].generation < q.generation
    ensures
      var q' := Exec(q, es);
      i < |q'.jobs| && q'.jobs[i].generation < q'.generation && q'.jobs[i].guarded == q.jobs[i].guarded
    decreases |es|
  {
    hide Step;
    if es != [] {
      StaleStep(q, es[0], i);
      GenerationGrows(Step(q, es[0]), es[1..], i);
    }
  }

  /**
   * What `cancel` does to the operation it finds running: if that ends without throwing, whatever else
   * happened meanwhile, it still succeeds if and only if it does not end with `check()`.
   */
  lemma CancelStopsExactlyGuardedWork(limit: nat, es: seq<Event>, more: seq<Event>, i: Id)
    requires var q := Exec(New(limit), es); i < |q.jobs| && q.jobs[i].phase.Running?
    requires
      var q' := Exec(Step(Exec(New(limit), es), CancelCalled), more);
      i < |q'.jobs| && q'.jobs[i].phase.Running?
    ensures
      var q := Exec(New(limit), es);
      var ended := Step(Exec(Step(q, CancelCalled), more), Ended(i, false));
      i < |ended.jobs| && ended.jobs[i].phase.Ending? && (ended.jobs[i].phase.result.Success? <==> !q.jobs[i].guarded)
  {
    hide Exec, Inv;
    var q := Exec(New(limit), es);
    ReachableOk(limit, es);
    JobsBehind(q, i);
    StepKeeps(q, CancelCalled);
    var c := Step(q, CancelCalled);
    GenerationGrows(c, more, i);
    ExecKeeps(c, more);
    WaitingPhase(Exec(c, more));
  }

  lemma JobsBehind(q: Queue, i: Id)
    requires Inv(q) && i < |q.jobs| && q.jobs[i].phase.Running?
    ensures
      var c := Step(q, CancelCalled);
      i < |c.jobs| && c.jobs[i].generation < c.generation && c.jobs[i].guarded == q.jobs[i].guarded
  {
  }
}
