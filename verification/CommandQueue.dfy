/** The lane as the object it is; every method takes exactly the step `CommandQueueState.Step` says. */
module CommandQueue {
  import opened CommandQueueState
  import opened CommandQueueTheorems

  class CommandQueue {
    const limit: nat
    var waiting: seq<Id>
    var active: bool
    var generation: nat
    // The promises it has handed out.
    var jobs: seq<Job>
    var taken: seq<Id>
    var settled: multiset<Id>
    ghost var trace: seq<Event>

    ghost function Model(): Queue
      reads this
    {
      Queue(limit, waiting, active, generation, jobs, taken, settled)
    }

    ghost predicate Valid()
      reads this
    {
      Model() == Exec(New(limit), trace)
    }

    /** The default limit is 32. */
    constructor (limit: nat := 32)
      ensures Valid() && trace == [] && this.limit == limit
    {
      this.limit, waiting, active, generation := limit, [], false, 0;
      jobs, taken, settled, trace := [], [], multiset{}, [];
    }

    ghost method Record(e: Event, before: Queue)
      requires before == Exec(New(limit), trace) && Model() == Step(before, e)
      modifies this`trace
      ensures Valid() && trace == old(trace) + [e]
    {
      hide Step;
      ExecSnoc(New(limit), trace, e);
      trace := trace + [e];
    }

    /** `drain`: the lane is taken by the first that waits, if it is free; nobody else moves. */
    method TakeNext()
      requires InRange(Model())
      modifies `waiting, `active, `jobs, `taken
      ensures Model() == Drain(old(Model()))
      ensures taken + waiting == old(taken + waiting) && |taken| <= |old(taken)| + 1
      ensures active == (old(active) || old(waiting) != []) && (old(active) ==> Model() == old(Model()))
      ensures Idle(old(Model())) ==> Inv(Model())
    {
      if Idle(Model()) { DrainKeeps(Model()); }
      hide Idle, Inv;
      if active || waiting == [] { return; }
      var entry := waiting[0];
      waiting := waiting[1..];
      active := true;
      taken := taken + [entry];
      jobs := SetPhase(jobs, entry, Taken);
    }

    /** `run`. */
    method Submit(guarded: bool)
      requires Valid()
      modifies this
      ensures Valid() && trace == old(trace) + [Submitted(guarded)]
    {
      hide Exec, Drain;
      RunInRange(limit, trace);
      ghost var before := Model();
      var i := |jobs|;
      if |waiting| + (if active then 1 else 0) >= limit {
        jobs := jobs + [Job(generation, guarded, Refused, false)];
        settled := settled + multiset{i};
      } else {
        jobs := jobs + [Job(generation, guarded, Waiting, false)];
        waiting := waiting + [i];
        TakeNext();
      }
      Record(Submitted(guarded), before);
    }

    /** `cancel`: `for (const entry of this.waiting.splice(0)) entry.cancel()`. */
    method CancelAllWaiting()
      requires Valid()
      modifies this
      ensures Valid() && trace == old(trace) + [CancelCalled]
    {
      hide Exec;
      RunInRange(limit, trace);
      ghost var before := Model();
      generation := generation + 1;
      var entries := waiting;
      waiting := [];
      jobs, settled := RejectAll(entries, jobs, settled);
      Record(CancelCalled, before);
    }

    /** The `finally` of `start`. */
    method Finish(i: Id, result: Result)
      requires i < |jobs| && InRange(Model())
      modifies `waiting, `active, `jobs, `taken, `settled
      ensures Model() == Settle(old(Model()), i, result)
    {
      hide Drain;
      jobs := SetPhase(jobs, i, Done(result));
      settled := settled + multiset{i};
      active := false;
      TakeNext();
    }

    /** `start` up to the operation's body. */
    method StartJob(i: Id)
      requires Valid() && i < |jobs| && jobs[i].phase.Taken?
      modifies this
      ensures Valid() && trace == old(trace) + [Started(i)]
    {
      hide Exec, Settle;
      RunInRange(limit, trace);
      ghost var before := Model();
      if jobs[i].generation != generation {
        Finish(i, Failure);
      } else {
        jobs := jobs[i := jobs[i].(phase := Running, begun := true)];
      }
      Record(Started(i), before);
    }

    /** The operation's promise settles, after its own last `check()` if it is guarded. */
    method EndJob(i: Id, threw: bool)
      requires Valid() && i < |jobs| && jobs[i].phase.Running?
      modifies this
      ensures Valid() && trace == old(trace) + [Ended(i, threw)]
    {
      hide Exec;
      RunInRange(limit, trace);
      ghost var before := Model();
      var failed := threw || (jobs[i].guarded && jobs[i].generation != generation);
      jobs := SetPhase(jobs, i, Ending(if failed then Failure else Success));
      Record(Ended(i, threw), before);
    }

    /** `start` after `await operation(check)`: resolve or reject, free the lane, take the next job. */
    method ContinueJob(i: Id)
      requires Valid() && i < |jobs| && jobs[i].phase.Ending?
      modifies this
      ensures Valid() && trace == old(trace) + [Continued(i)]
    {
      hide Exec, Settle;
      RunInRange(limit, trace);
      ghost var before := Model();
      Finish(i, jobs[i].phase.result);
      Record(Continued(i), before);
    }
  }

  /** Reject the promise of every entry. */
  method RejectAll(entries: seq<Id>, jobs0: seq<Job>, settled0: multiset<Id>) returns (jobs: seq<Job>, settled: multiset<Id>)
    ensures jobs == CancelAll(jobs0, entries) && settled == settled0 + multiset(entries)
  {
    jobs, settled := jobs0, settled0;
    assert CancelAll(jobs0, []) == jobs0;
    for k := 0 to |entries|
      invariant jobs == CancelAll(jobs0, entries[..k]) && settled == settled0 + multiset(entries[..k])
    {
      assert entries[..k + 1] == entries[..k] + [entries[k]];
      var i := entries[k];
      if i < |jobs| {
        jobs := jobs[i := jobs[i].(phase := Cancelled)];
      }
      settled := settled + multiset{i};
      assert jobs == CancelAll(jobs0, entries[..k + 1]);
    }
    assert entries[..|entries|] == entries;
  }

  lemma RunInRange(limit: nat, es: seq<Event>)
    ensures InRange(Exec(New(limit), es))
  {
    hide Exec;
    ReachableOk(limit, es);
  }

  lemma {:induction false} ExecSnoc(q: Queue, es: seq<Event>, e: Event)
    ensures Exec(q, es + [e]) == Step(Exec(q, es), e)
    decreases |es|
  {
    hide Step;
    if es == [] {
      assert es + [e] == [e] && [e][1..] == [];
    } else {
      assert (es + [e])[1..] == es[1..] + [e];
      ExecSnoc(Step(q, es[0]), es[1..], e);
    }
  }
}
