/**
 * The loops and the lane of protected fill, on the state they update: `w.lane` is the promise chain
 * `writes`, and every method takes exactly the step `ProtectedFillState.Step` says.
 */
module ProtectedFill {
  import opened Options
  import opened ProtectedFillState
  import ProtectedFillTheorems
  import opened ProtectedFillHandlers

  /** The inner loop of `collectTabs`: `for (const tab of tabs)`. */
  method PassOver(tabs: seq<Tab>, ids0: seq<TabId>) returns (ids: seq<TabId>, added: bool)
    ensures ids == Pass(tabs, ids0) && (added <==> ids != ids0)
  {
    ids, added := ids0, false;
    for i := 0 to |tabs|
      invariant Pass(tabs, ids0) == Pass(tabs[i..], ids)
      invariant ids0 <= ids && (added <==> |ids| > |ids0|)
    {
      assert tabs[i..][0] == tabs[i] && tabs[i..][1..] == tabs[i + 1..];
      var tab := tabs[i];
      if tab.opener.Some? && tab.opener.value in ids && tab.id !in ids {
        ids := ids + [tab.id];
        added := true;
      }
    }
    assert tabs[|tabs|..] == [];
  }

  /** `collectTabs`: `while (added)`. */
  method CollectDescendants(tabs: seq<Tab>, ids0: seq<TabId>) returns (ids: seq<TabId>)
    ensures ids == Descendants(tabs, ids0)
  {
    hide Descendants, Pass;
    ids := ids0;
    var added := true;
    while added
      invariant Descendants(tabs, ids) == Descendants(tabs, ids0)
      invariant !added ==> Descendants(tabs, ids) == ids
      decreases |TabIds(tabs) - Known(ids)|, added
    {
      PassGrows(tabs, ids);
      OnePass(tabs, ids);
      var next;
      next, added := PassOver(tabs, ids);
      if added { Shrinks(tabs, ids, next); }
      ids := next;
    }
  }

  /** One more pass does not change where the loop ends. */
  lemma OnePass(tabs: seq<Tab>, ids: seq<TabId>)
    ensures Descendants(tabs, ids) == Descendants(tabs, Pass(tabs, ids))
    ensures Pass(tabs, ids) == ids ==> Descendants(tabs, ids) == ids
  {
  }

  /** `[...new Set([...a, ...b])]`. */
  method MergeIds(a: seq<TabId>, b: seq<TabId>) returns (r: seq<TabId>)
    ensures r == Union(a, b)
  {
    r := a;
    for i := 0 to |b|
      invariant Union(a, b) == Union(r, b[i..])
    {
      assert b[i..][0] == b[i] && b[i..][1..] == b[i + 1..];
      if b[i] !in r { r := r + [b[i]]; }
    }
    assert b[|b|..] == [];
  }

  /** The last check of `complete`: `tabs.some(...)`. */
  method AnyLeft(tabs: seq<Tab>, ids: seq<TabId>) returns (left: bool)
    ensures left <==> !NoneLeft(tabs, ids)
  {
    left := false;
    for i := 0 to |tabs|
      invariant !left <==> NoneLeft(tabs[..i], ids)
    {
      var t := tabs[i];
      assert tabs[..i + 1] == tabs[..i] + [t];
      if t.id in ids || (t.opener.Some? && t.opener.value in ids) { left := true; }
    }
    assert tabs[..|tabs|] == tabs;
  }

  class ProtectedFill {
    var w: World
    ghost var trace: seq<Event>

    ghost predicate Valid()
      reads this
    {
      w == Exec(EMPTY, trace)
    }

    constructor ()
      ensures Valid() && trace == []
    {
      w, trace := EMPTY, [];
    }

    ghost method Record(e: Event, before: World)
      requires before == Exec(EMPTY, trace) && w == Step(before, e)
      modifies this`trace
      ensures Valid() && trace == old(trace) + [e]
    {
      hide Step;
      ExecSnoc(EMPTY, trace, e);
      trace := trace + [e];
    }

    /** `exclusive`: queue behind `writes`. */
    method Exclusive(job: Job)
      requires Valid() && Existing(job, w.nextTab)
      modifies this
      ensures Valid() && trace == old(trace) + [Enqueued(job)]
    {
      hide Exec;
      ghost var before := w;
      w := w.(lane := w.lane + [job]);
      Record(Enqueued(job), before);
    }

    /** The next closure starts and reads the lock. */
    method StartNext()
      requires Valid() && w.running.None? && w.lane != []
      modifies this
      ensures Valid() && trace == old(trace) + [Began]
    {
      hide Exec;
      ghost var before := w;
      var job := w.lane[0];
      w := w.(lane := w.lane[1..]);
      w := w.(running := Some(Running(job, w.lock, None)));
      Record(Began, before);
    }

    /** `trackTab`'s closure. */
    method CommitTrack()
      requires Valid() && w.running.Some? && w.running.value.job.Track?
      modifies this
      ensures Valid() && trace == old(trace) + [Committed]
      ensures TrackedBy(old(w), w, old(w).running.value.job)
    {
      hide Exec, TrackedBy;
      CommitTracks(w, trace);
      ghost var before := w;
      var lock := w.running.value.lock;
      var Track(id, opener) := w.running.value.job;
      w := w.(running := None);
      if lock.Some? && SameSession(w, lock.value) && opener in lock.value.tabIds && id !in lock.value.tabIds {
        w := w.(lock := Some(lock.value.(tabIds := lock.value.tabIds + [id])));
      }
      Record(Committed, before);
    }

    /** The closure of `fill` that creates the lock. */
    method CommitReserve()
      requires Valid() && w.running.Some? && w.running.value.job.Reserve?
      modifies this
      ensures Valid() && trace == old(trace) + [Committed]
    {
      hide Exec;
      ghost var before := w;
      var lock := w.running.value.lock;
      var Reserve(request, tabs, base, sessionAvailable) := w.running.value.job;
      w := w.(running := None);
      if lock.None? {
        var session := None;
        if sessionAvailable {
          if w.session.None? {
            w := w.(session := Some(w.sessions), sessions := w.sessions + 1);
          }
          session := w.session;
        }
        w := w.(lock := Some(Lock(session, request, tabs, base)));
      }
      Record(Committed, before);
    }

    /** The closure of `fill` that merges the tabs consent may have added. */
    method CommitMerge()
      requires Valid() && w.running.Some? && w.running.value.job.Merge?
      modifies this
      ensures Valid() && trace == old(trace) + [Committed]
    {
      hide Exec, Union;
      ghost var before := w;
      var lock := w.running.value.lock;
      var tabs := w.running.value.job.merged;
      w := w.(running := None);
      if lock.Some? {
        var merged := MergeIds(lock.value.tabIds, tabs);
        w := w.(lock := Some(lock.value.(tabIds := merged)));
      }
      Record(Committed, before);
    }

    /** `collectTabs` after its query: persist the closure before anything is closed. */
    method CommitCollect() returns (live: seq<TabId>)
      requires Valid() && w.running.Some? && w.running.value.job.Collect? && w.running.value.seen.Some?
      modifies this
      ensures Valid() && trace == old(trace) + [Committed]
      ensures w.lock.Some? && forall i :: i in live <==> i in w.lock.value.tabIds && Live(old(w).running.value.seen.value, i)
    {
      hide Exec, Descendants, Live;
      CollectHasLock(trace);
      ghost var before := w;
      var lock := w.running.value.lock.value;
      var tabs := w.running.value.seen.value;
      var ids := CollectDescendants(tabs, lock.tabIds);
      w := w.(running := None);
      w := w.(lock := Some(lock.(tabIds := ids)));
      live := LiveOnly(tabs, ids);
      Record(Committed, before);
    }

    /** The end of `complete` on the session path. */
    method CommitFinish() returns (removed: bool)
      requires Valid() && w.running.Some? && w.running.value.job.Finish? && w.running.value.seen.Some?
      modifies this
      ensures Valid() && trace == old(trace) + [Committed]
      ensures removed <==> w.lock.None?
    {
      hide Exec, NoneLeft;
      CollectHasLock(trace);
      ghost var before := w;
      var lock := w.running.value.lock.value;
      var left := AnyLeft(w.running.value.seen.value, lock.tabIds);
      w := w.(running := None);
      if !left { w := w.(lock := None); }
      removed := !left;
      Record(Committed, before);
    }
  }

  /** The opened tab is recorded exactly if the lock of this session records its opener. */
  ghost predicate TrackedBy(w: World, q: World, job: Job)
    requires job.Track?
  {
    if Covers(w, job.opener)
    then q.lock.Some? && Known(q.lock.value.tabIds) == Known(w.lock.value.tabIds) + {job.id} else q.lock == w.lock
  }

  lemma CommitTracks(w: World, es: seq<Event>)
    requires w == Exec(EMPTY, es) && w.running.Some? && w.running.value.job.Track?
    ensures TrackedBy(w, Step(w, Committed), w.running.value.job)
  {
    hide Exec, ProtectedFillTheorems.Inv, Step;
    ProtectedFillTheorems.ReachableOk(es);
    TrackMeans(w, w.running.value.job.id, w.running.value.job.opener);
  }

  /** `lock.tabIds.filter(id => tabs.some(t => t.id === id))`. */
  method LiveOnly(tabs: seq<Tab>, ids: seq<TabId>) returns (live: seq<TabId>)
    ensures forall i :: i in live <==> i in ids && Live(tabs, i)
  {
    live := [];
    for k := 0 to |ids|
      invariant forall i :: i in live <==> i in ids[..k] && Live(tabs, i)
    {
      assert ids[..k + 1] == ids[..k] + [ids[k]];
      if Live(tabs, ids[k]) { live := live + [ids[k]]; }
    }
    assert ids[..|ids|] == ids;
  }

  lemma CollectHasLock(es: seq<Event>)
    ensures
      var w := Exec(EMPTY, es);
      w.running.Some? && w.running.value.seen.Some? && !w.running.value.job.FinishRecovery? ==>
        w.running.value.lock.Some? && w.running.value.lock == w.lock
  {
    hide Exec;
    ProtectedFillTheorems.ReachableOk(es);
  }

  lemma {:induction false} ExecSnoc(w: World, es: seq<Event>, e: Event)
    ensures Exec(w, es + [e]) == Step(Exec(w, es), e)
    decreases |es|
  {
    hide Step;
    if es == [] {
      assert es + [e] == [e] && [e][1..] == [];
    } else {
      assert (es + [e])[1..] == es[1..] + [e];
      ExecSnoc(Step(w, es[0]), es[1..], e);
    }
  }
}
