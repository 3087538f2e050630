/** What the disclosure lock promises, for every interleaving of closures and browser events. */
module ProtectedFillTheorems {
  import opened Options
  import opened ProtectedFillState

  // ---------------------------------------------------------------- the opener closure

  /** `s` holds the opener descendants of everything in it. */
  ghost predicate Closed(tabs: seq<Tab>, s: set<TabId>) {
    forall t <- tabs :: t.opener.Some? && t.opener.value in s ==> t.id in s
  }

  /** `id` is recorded, or reached from a recorded tab along live openers: it is in every closed superset. */
  ghost predicate InClosure(tabs: seq<Tab>, ids: seq<TabId>, id: TabId) {
    forall s: set<TabId> | Known(ids) <= s && Closed(tabs, s) :: id in s
  }

  lemma {:induction false} PassInside(tabs: seq<Tab>, all: seq<Tab>, ids: seq<TabId>, s: set<TabId>)
    requires Known(ids) <= s && Closed(all, s) && forall t <- tabs :: t in all
    ensures Known(Pass(tabs, ids)) <= s
    decreases |tabs|
  {
    if tabs != [] {
      assert tabs[0] in tabs;
      PassInside(tabs[1..], all, Visit(tabs[0], ids), s);
    }
  }

  lemma {:induction false} UnchangedIsClosed(tabs: seq<Tab>, ids: seq<TabId>)
    requires Pass(tabs, ids) == ids
    ensures Closed(tabs, Known(ids))
    decreases |tabs|
  {
    if tabs != [] {
      var v := Visit(tabs[0], ids);
      PassGrows(tabs[1..], v);
      assert v == ids;
      UnchangedIsClosed(tabs[1..], ids);
    }
  }

  /** `collectTabs` records exactly the opener closure of what was recorded: the least closed superset. */
  lemma {:induction false} DescendantsAreTheClosure(tabs: seq<Tab>, ids: seq<TabId>)
    ensures
      var d := Descendants(tabs, ids);
      && ids <= d && Closed(tabs, Known(d))
      && (forall s: set<TabId> | Known(ids) <= s && Closed(tabs, s) :: Known(d) <= s)
    decreases |TabIds(tabs) - Known(ids)|
  {
    PassGrows(tabs, ids);
    var next := Pass(tabs, ids);
    forall s: set<TabId> | Known(ids) <= s && Closed(tabs, s) ensures Known(next) <= s {
      PassInside(tabs, tabs, ids, s);
    }
    if next == ids {
      UnchangedIsClosed(tabs, ids);
    } else {
      Shrinks(tabs, ids, next);
      DescendantsAreTheClosure(tabs, next);
    }
  }

  lemma ClosureCharacterised(tabs: seq<Tab>, ids: seq<TabId>, id: TabId)
    ensures id in Descendants(tabs, ids) <==> InClosure(tabs, ids, id)
  {
    DescendantsAreTheClosure(tabs, ids);
    if InClosure(tabs, ids, id) {
      assert id in Known(Descendants(tabs, ids));
    }
  }

  /** The one-step check of `complete` is enough: nothing live is in the closure at all. */
  lemma OneStepCheckSuffices(tabs: seq<Tab>, ids: seq<TabId>)
    ensures NoneLeft(tabs, ids) <==> forall t <- tabs :: !InClosure(tabs, ids, t.id)
  {
    if NoneLeft(tabs, ids) {
      assert Closed(tabs, Known(ids));
    } else {
      var t :| t in tabs && (t.id in ids || (t.opener.Some? && t.opener.value in ids));
      assert InClosure(tabs, ids, t.id);
    }
  }

  // ---------------------------------------------------------------- every step

  /** Tab ids are not reused while the browser runs. */
  ghost predicate TabsOk(tabs: seq<Tab>, next: TabId) {
    forall t <- tabs :: t.id < next
  }

  /** The closure in progress sees the lock as it is stored. */
  ghost predicate LaneOk(running: Option<Running>, lock: Option<Lock>) {
    running.Some? ==>
      && running.value.lock == lock
      && (running.value.seen.Some? && !running.value.job.FinishRecovery? ==> lock.Some?)
      && (running.value.seen.Some? ==> running.value.job.Collect? || running.value.job.Finish? || running.value.job.FinishRecovery?)
  }

  ghost predicate JobsOk(lane: seq<Job>, running: Option<Running>, next: TabId) {
    && (forall j <- lane :: Existing(j, next))
    && (running.Some? ==> Existing(running.value.job, next) && (running.value.seen.Some? ==> TabsOk(running.value.seen.value, next)))
  }

  /** A lock of this browser session records tabs of this browser run only. */
  ghost predicate SessionOk(lock: Option<Lock>, session: Option<Session>, sessions: Session, next: TabId) {
    && (session.Some? ==> session.value < sessions)
    && (lock.Some? && lock.value.session.Some? ==> lock.value.session.value < sessions)
    && (lock.Some? && lock.value.session.Some? && lock.value.session == session ==> forall i <- lock.value.tabIds :: i < next)
  }

  /** Between the last check and the removal, nothing opened since descends from a recorded tab. */
  ghost predicate SeenOk(running: Option<Running>, lock: Option<Lock>, tabs: seq<Tab>, trackingFailed: bool, session: Option<Session>) {
    running.Some? && running.value.job.Finish? && running.value.seen.Some? && lock.Some? ==>
      && !trackingFailed && lock.value.session.Some? && lock.value.session == session
      && (NoneLeft(running.value.seen.value, lock.value.tabIds) ==> NoneLeft(tabs, lock.value.tabIds))
  }

  ghost predicate Inv(w: World) {
    && TabsOk(w.tabs, w.nextTab) && LaneOk(w.running, w.lock) && JobsOk(w.lane, w.running, w.nextTab)
    && SessionOk(w.lock, w.session, w.sessions, w.nextTab)
    && SeenOk(w.running, w.lock, w.tabs, w.trackingFailed, w.session)
  }

  lemma {:induction false} WithoutIn(tabs: seq<Tab>, id: TabId)
    ensures forall t :: t in Without(tabs, id) <==> t in tabs && t.id != id
  {
    if tabs != [] {
      WithoutIn(tabs[1..], id);
    }
  }

  lemma {:induction false} UnionIn(a: seq<TabId>, b: seq<TabId>)
    ensures a <= Union(a, b) && forall i :: i in Union(a, b) <==> i in a || i in b
    decreases |b|
  {
    if b != [] {
      UnionIn(if b[0] in a then a else a + [b[0]], b[1..]);
    }
  }

  lemma DescendantsExist(tabs: seq<Tab>, ids: seq<TabId>, next: TabId)
    requires TabsOk(tabs, next) && forall i <- ids :: i < next
    ensures forall i <- Descendants(tabs, ids) :: i < next
  {
    DescendantsAreTheClosure(tabs, ids);
    var s := Known(ids) + TabIds(tabs);
    assert Closed(tabs, s) && Known(ids) <= s;
    assert Known(Descendants(tabs, ids)) <= s;
    forall i | i in Descendants(tabs, ids) ensures i < next {
      assert i in Known(Descendants(tabs, ids)) && i in s;
    }
  }

  lemma CommitKeeps(w: World)
    requires Inv(w)
    ensures Inv(Commit(w))
  {
    hide Descendants, Union, Write, Throw, WithSession, TabsOk, JobsOk, SessionOk, SeenOk, NoneLeft;
    if w.running.Some? {
      var r := w.running.value;
      IdleKeeps(w);
      WithSessionKeeps(w);
      match r.job {
        case Track(id, opener) => if r.lock.Some? { TrackedLock(w, id, opener); }
        case Configure(api) => if r.lock.Some? { SameTabsLock(w, r.lock.value.(apiBase := Some(api))); }
        case Recover(request, api) => NoSessionLock(w, Lock(None, request, [], Some(api)));
        case Reserve(request, tabs, api, available) =>
          NoSessionLock(w, Lock(None, request, tabs, api));
          ReservedLock(w, request, tabs, api, available);
        case Merge(tabs) => if r.lock.Some? { MergedLock(w, tabs); }
        case Collect => if r.seen.Some? && r.lock.Some? { CollectedLock(w); }
        case _ =>
      }
    }
  }

  /** A closure that ends leaves a state as good as the lock it writes, and may leave the lock alone. */
  lemma IdleKeeps(w: World)
    requires Inv(w) && w.running.Some?
    ensures Inv(w.(running := None)) && Inv(Throw(w)) && Inv(Write(w, None))
  {
    hide NoneLeft, Existing;
  }

  lemma WrittenKeeps(w: World, lock: Lock)
    requires Inv(w) && SessionOk(Some(lock), w.session, w.sessions, w.nextTab)
    ensures Inv(Write(w, Some(lock)))
  {
    hide NoneLeft, Existing, SessionOk;
  }

  lemma WithSessionKeeps(w: World)
    requires Inv(w) && w.running.Some?
    ensures Inv(WithSession(w).(running := None))
  {
    hide NoneLeft, Existing;
  }

  lemma TrackedLock(w: World, id: TabId, opener: TabId)
    requires Inv(w) && w.lock.Some? && w.running.Some? && w.running.value.job == Track(id, opener)
    ensures Inv(Write(w, Some(w.lock.value.(tabIds := w.lock.value.tabIds + [id]))))
  {
    WrittenKeeps(w, w.lock.value.(tabIds := w.lock.value.tabIds + [id]));
  }

  lemma SameTabsLock(w: World, lock: Lock)
    requires Inv(w) && w.lock.Some? && lock.session == w.lock.value.session && lock.tabIds == w.lock.value.tabIds
    ensures Inv(Write(w, Some(lock)))
  {
    WrittenKeeps(w, lock);
  }

  lemma NoSessionLock(w: World, lock: Lock)
    requires Inv(w) && lock.session.None?
    ensures Inv(Write(w, Some(lock)))
  {
    WrittenKeeps(w, lock);
  }

  lemma ReservedLock(w: World, request: nat, tabs: seq<TabId>, api: Option<nat>, available: bool)
    requires Inv(w) && w.running.Some? && w.running.value.job == Reserve(request, tabs, api, available)
    ensures Inv(Write(WithSession(w), Some(Lock(WithSession(w).session, request, tabs, api))))
  {
    hide NoneLeft;
  }

  lemma MergedLock(w: World, tabs: seq<TabId>)
    requires Inv(w) && w.running.Some? && w.running.value.job == Merge(tabs) && w.lock.Some?
    ensures Inv(Write(w, Some(w.lock.value.(tabIds := Union(w.lock.value.tabIds, tabs)))))
  {
    UnionIn(w.lock.value.tabIds, tabs);
    WrittenKeeps(w, w.lock.value.(tabIds := Union(w.lock.value.tabIds, tabs)));
  }

  lemma CollectedLock(w: World)
    requires Inv(w) && w.running.Some? && w.running.value.seen.Some? && w.lock.Some?
    ensures Inv(Write(w, Some(w.lock.value.(tabIds := Descendants(w.running.value.seen.value, w.lock.value.tabIds)))))
  {
    hide Descendants;
    var l, seen := w.lock.value, w.running.value.seen.value;
    if SameSession(w, l) { DescendantsExist(seen, l.tabIds, w.nextTab); }
    WrittenKeeps(w, l.(tabIds := Descendants(seen, l.tabIds)));
  }

  lemma TabsKeep(w: World, e: Event)
    requires Inv(w) && (e.TabOpened? || e.TabClosed? || e.OpenerForgotten?)
    ensures Inv(Step(w, e))
  {
    match e {
      case TabOpened(opener) =>
      case TabClosed(id) => WithoutIn(w.tabs, id);
      case OpenerForgotten(id) =>
        var f := Forget(w.tabs, id);
        forall t | t in f ensures exists x :: x in w.tabs && x.id == t.id && (t.opener == x.opener || t.opener.None?) {
          var i :| 0 <= i < |f| && f[i] == t;
          assert w.tabs[i] in w.tabs;
        }
    }
  }

  lemma StepKeeps(w: World, e: Event)
    requires Inv(w)
    ensures Inv(Step(w, e))
  {
    match e {
      case Committed => CommitKeeps(w);
      case TabOpened(_) => TabsKeep(w, e);
      case TabClosed(_) => TabsKeep(w, e);
      case OpenerForgotten(_) => TabsKeep(w, e);
      case _ => hide Commit, Forget, Without, NoneLeft;
    }
  }

  lemma {:induction false} ExecKeeps(w: World, es: seq<Event>)
    requires Inv(w)
    ensures Inv(Exec(w, es))
    decreases |es|
  {
    hide Inv, Step;
    if es != [] {
      StepKeeps(w, es[0]);
      ExecKeeps(Step(w, es[0]), es[1..]);
    }
  }

  lemma ReachableOk(es: seq<Event>)
    ensures Inv(Exec(EMPTY, es))
  {
    hide Step;
    ExecKeeps(EMPTY, es);
  }

  // ---------------------------------------------------------------- what it promises

  /** A closure's write is based on the lock as it is stored at that moment: nothing was lost in between. */
  lemma ReadsAreCurrent(es: seq<Event>)
    ensures var w := Exec(EMPTY, es); w.running.Some? ==> w.running.value.lock == w.lock
  {
    hide Exec;
    ReachableOk(es);
  }

  /** The step ends `complete`: the lock is removed. */
  ghost predicate Removes(w: World, e: Event) {
    w.lock.Some? && Step(w, e).lock.None?
  }

  /** The same disclosure, with at least the tabs it had; a pinned endpoint stays. */
  ghost predicate SameDisclosure(a: Lock, b: Lock) {
    && b.request == a.request && b.session == a.session
    && Known(a.tabIds) <= Known(b.tabIds)
    && (a.apiBase.Some? ==> b.apiBase == a.apiBase)
  }

  /**
   * While a lock exists no other request overwrites it, its recorded tabs only grow, and only the
   * end of `complete` removes it.
   */
  lemma LockOnlyGrows(es: seq<Event>, e: Event)
    requires Exec(EMPTY, es).lock.Some?
    ensures
      var w := Exec(EMPTY, es);
      if Step(w, e).lock.Some? then SameDisclosure(w.lock.value, Step(w, e).lock.value)
      else e.Committed? && w.running.Some? && (w.running.value.job.Finish? || w.running.value.job.FinishRecovery?)
  {
    hide Exec;
    ReachableOk(es);
    var w := Exec(EMPTY, es);
    LockStep(w, e);
  }

  lemma LockStep(w: World, e: Event)
    requires Inv(w) && w.lock.Some?
    ensures
      if Step(w, e).lock.Some? then SameDisclosure(w.lock.value, Step(w, e).lock.value)
      else e.Committed? && w.running.Some? && (w.running.value.job.Finish? || w.running.value.job.FinishRecovery?)
  {
    if e.Committed? && w.running.Some? {
      var r := w.running.value;
      if r.job.Merge? { UnionIn(w.lock.value.tabIds, r.job.merged); }
      if r.job.Collect? && r.seen.Some? {
        DescendantsAreTheClosure(r.seen.value, w.lock.value.tabIds);
      }
    }
    hide Descendants, Union, NoneLeft, Forget, Without;
  }

  /** Over any run in which the lock is never removed it stays the same disclosure. */
  lemma {:induction false} DisclosureSurvives(w: World, es: seq<Event>)
    requires Inv(w) && w.lock.Some?
    requires forall i | 0 <= i < |es| :: !Removes(Exec(w, es[..i]), es[i])
    ensures Exec(w, es).lock.Some? && SameDisclosure(w.lock.value, Exec(w, es).lock.value)
    decreases |es|
  {
    if es != [] {
      var n := Step(w, es[0]);
      assert es[..0] == [] && Exec(w, es[..0]) == w;
      hide Step, Inv;
      LockStep(w, es[0]);
      StepKeeps(w, es[0]);
      forall i | 0 <= i < |es[1..]| ensures !Removes(Exec(n, es[1..][..i]), es[1..][i]) {
        assert es[..i + 1][1..] == es[1..][..i] && es[..i + 1][0] == es[0];
        assert Exec(w, es[..i + 1]) == Exec(n, es[1..][..i]);
        assert !Removes(Exec(w, es[..i + 1]), es[i + 1]);
      }
      DisclosureSurvives(n, es[1..]);
    }
  }

  /**
   * When the session path removes the lock, no live tab lies in the opener closure of any recorded
   * tab, no tab event was ever lost in this worker, and the lock belongs to this browser session.
   */
  lemma CleanupIsComplete(es: seq<Event>)
    requires var w := Exec(EMPTY, es); Removes(w, Committed) && w.running.Some? && w.running.value.job.Finish?
    ensures
      var w := Exec(EMPTY, es);
      && (forall t <- w.tabs :: !InClosure(w.tabs, w.lock.value.tabIds, t.id))
      && !w.trackingFailed && SameSession(w, w.lock.value)
  {
    hide Exec;
    ReachableOk(es);
    var w := Exec(EMPTY, es);
    OneStepCheckSuffices(w.tabs, w.lock.value.tabIds);
  }

  /** A lost tab event is remembered for as long as the worker lives. */
  lemma TrackingFailureSticks(w: World, e: Event)
    requires w.trackingFailed && !e.WorkerRestarted? && !e.BrowserRestarted?
    ensures Step(w, e).trackingFailed
  {
  }

  /** After a browser restart the session path cannot remove a lock: only a lock made since then is of this session. */
  lemma RestartBlocksSessionPath(es: seq<Event>)
    requires Exec(EMPTY, es).lock.Some?
    ensures
      var r := Step(Exec(EMPTY, es), BrowserRestarted);
      r.lock == Exec(EMPTY, es).lock && !SameSession(r, r.lock.value) && r.lock.value.session != Some(r.sessions)
  {
    hide Exec;
    ReachableOk(es);
  }
}
