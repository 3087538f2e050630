/** What each closure of the disclosure lock writes, and what tracking an opened tab is good for. */
module ProtectedFillHandlers {
  import opened Options
  import opened ProtectedFillState
  import opened ProtectedFillTheorems

  /** The lock of this session records `opener`. */
  predicate Covers(w: World, opener: TabId) {
    w.lock.Some? && SameSession(w, w.lock.value) && opener in w.lock.value.tabIds
  }

  predicate Tracking(w: World, id: TabId, opener: TabId) {
    w.running.Some? && w.running.value.job == Track(id, opener)
  }

  /** A tab opened from a recorded one is recorded; any other leaves the lock alone. */
  lemma TrackMeans(w: World, id: TabId, opener: TabId)
    requires Inv(w) && Tracking(w, id, opener)
    ensures
      var q := Step(w, Committed);
      if Covers(w, opener)
      then q.lock.Some? && Known(q.lock.value.tabIds) == Known(w.lock.value.tabIds) + {id} && q.lock.value.(tabIds := w.lock.value.tabIds) == w.lock.value
      else q.lock == w.lock
    ensures w.lock.Some? && id in w.lock.value.tabIds ==> Step(w, Committed).lock == w.lock
  {
    hide TabsOk, JobsOk, SessionOk, SeenOk;
  }

  /** From then on it is recorded, whatever happens, until the lock is removed. */
  lemma TrackedStaysRecorded(w: World, id: TabId, opener: TabId, es: seq<Event>)
    requires Inv(w) && Tracking(w, id, opener) && Covers(w, opener)
    requires forall i | 0 <= i < |es| :: !Removes(Exec(Step(w, Committed), es[..i]), es[i])
    ensures var n := Exec(Step(w, Committed), es); n.lock.Some? && id in n.lock.value.tabIds
  {
    hide Inv, Step, Exec, Removes;
    TrackMeans(w, id, opener);
    StepKeeps(w, Committed);
    DisclosureSurvives(Step(w, Committed), es);
    StillKnown(Step(w, Committed).lock.value, Exec(Step(w, Committed), es).lock.value, id);
  }

  lemma StillKnown(a: Lock, b: Lock, id: TabId)
    requires SameDisclosure(a, b) && id in Known(a.tabIds)
    ensures id in b.tabIds
  {
    assert id in Known(b.tabIds);
  }

  /**
   * No disclosing popup is left behind: when the session path removes the lock, no tab whose tracking
   * committed under it is open, whatever became of the tab that opened it and of its opener link.
   */
  lemma {:induction false} TrackedTabsAreGone(before: seq<Event>, id: TabId, opener: TabId, es: seq<Event>)
    requires
      var w := Exec(EMPTY, before);
      var n := Exec(Step(w, Committed), es);
      && Tracking(w, id, opener) && Covers(w, opener)
      && (forall i | 0 <= i < |es| :: !Removes(Exec(Step(w, Committed), es[..i]), es[i]))
      && Removes(n, Committed) && n.running.Some? && n.running.value.job.Finish?
    ensures !Live(Exec(Step(Exec(EMPTY, before), Committed), es).tabs, id)
  {
    hide Inv, Step, Exec, Removes, Tracking, Covers;
    var w := Exec(EMPTY, before);
    ReachableOk(before);
    TrackedStaysRecorded(w, id, opener, es);
    StepKeeps(w, Committed);
    ExecKeeps(Step(w, Committed), es);
    RemovalFindsNone(Exec(Step(w, Committed), es), id);
  }

  lemma RemovalFindsNone(w: World, id: TabId)
    requires Inv(w) && Removes(w, Committed) && w.running.Some? && w.running.value.job.Finish? && id in w.lock.value.tabIds
    ensures !Live(w.tabs, id)
  {
    hide TabsOk, JobsOk, SessionOk;
  }

  // ---------------------------------------------------------------- the lane

  /** Closures run one after another, in the order they were queued: the first starts, and reads the lock, exactly if none is running. */
  lemma LaneMeans(w: World, job: Job)
    ensures
      var b := Step(w, Began);
      if w.running.None? && w.lane != []
      then b == w.(running := b.running, lane := w.lane[1..]) && b.running.Some? && b.running.value.job == w.lane[0]
           && b.running.value.lock == w.lock && b.running.value.seen.None?
      else b == w
    ensures Existing(job, w.nextTab) ==> Step(w, Enqueued(job)) == w.(lane := w.lane + [job])
  {
  }

  /** A closure ends when it writes or throws, whatever it is; the lane, the tabs and the sessions are nobody's but their owners'. */
  lemma ClosureEnds(w: World)
    requires Inv(w) && w.running.Some?
    ensures
      var f := Step(w, Failed);
      f == w.(running := None, trackingFailed := w.trackingFailed || w.running.value.job.Track?)
    ensures
      var job := w.running.value.job;
      var q := Step(w, Committed);
      && q.lane == w.lane && q.tabs == w.tabs && q.nextTab == w.nextTab && q.trackingFailed == w.trackingFailed
      && (!(job.Collect? || job.Finish? || job.FinishRecovery?) || w.running.value.seen.Some? ==> q.running.None?)
      && (!job.Reserve? && !job.EnsureSession? ==> q.session == w.session)
  {
    hide TabsOk, JobsOk, SessionOk, Descendants, NoneLeft, Union;
  }

  /**
   * The browser: a tab opens with a number never used before in this run, closes, or loses its opener; a
   * restart of the worker forgets its lane, one of the browser also its session and every tab, whose numbers
   * start over.
   */
  lemma BrowserMeans(w: World, opener: Option<TabId>, id: TabId)
    requires Inv(w)
    ensures
      var q := Step(w, TabOpened(opener));
      if opener.Some? && !Live(w.tabs, opener.value) then q == w
      else !Live(w.tabs, w.nextTab) && q == w.(tabs := w.tabs + [Tab(w.nextTab, opener)], nextTab := q.nextTab) && q.nextTab > w.nextTab
    ensures
      var q := Step(w, TabClosed(id));
      q == w.(tabs := q.tabs) && !Live(q.tabs, id) && forall t: Tab :: t in q.tabs <==> t in w.tabs && t.id != id
    ensures
      var q := Step(w, OpenerForgotten(id));
      q == w.(tabs := q.tabs) && |q.tabs| == |w.tabs|
      && forall i | 0 <= i < |w.tabs| :: q.tabs[i] == if w.tabs[i].id == id then Tab(id, None) else w.tabs[i]
    ensures Step(w, WorkerRestarted) == w.(lane := [], running := None, trackingFailed := false)
    ensures
      var q := Step(w, BrowserRestarted);
      q.lock == w.lock && q.session.None? && q.tabs == [] && q.lane == [] && q.running.None?
      && !q.trackingFailed && q.sessions == w.sessions && q.nextTab == 0
  {
    hide JobsOk, SessionOk, SeenOk;
    WithoutIn(w.tabs, id);
  }

  // ---------------------------------------------------------------- the other closures

  /** The tabs are looked at only under the lock of this browser session and while no tab event was lost; recovery needs just a lock. */
  lemma QueryMeans(w: World)
    requires Inv(w) && w.running.Some?
    ensures w.running.value.seen.Some? ==> Step(w, Queried) == w
    ensures w.running.value.seen.None? ==>
      var q, job := Step(w, Queried), w.running.value.job;
      if job.Collect? || job.Finish? || job.FinishRecovery?
      then
        if w.lock.Some? && (job.FinishRecovery? || (!w.trackingFailed && SameSession(w, w.lock.value)))
        then q == w.(running := Some(w.running.value.(seen := Some(w.tabs))))
        else q == w.(running := None)
      else q == w
  {
    hide TabsOk, JobsOk, SeenOk, SessionOk;
  }

  /** A fill is reserved only where nothing is locked: for the tabs named, under this browser session if it has an identity. */
  lemma ReserveMeans(w: World, request: nat, tabs: seq<TabId>, base: Option<nat>, available: bool)
    requires Inv(w) && w.running.Some? && w.running.value.job == Reserve(request, tabs, base, available)
    ensures
      var q := Step(w, Committed);
      if w.lock.Some? then q.lock == w.lock && q.session == w.session
      else
        && q.lock.Some? && q.lock.value.request == request && q.lock.value.tabIds == tabs && q.lock.value.apiBase == base
        && (if available then q.session.Some? && q.lock.value.session == q.session && (w.session.Some? ==> q.session == w.session)
            else q.lock.value.session.None? && q.session == w.session)
  {
    hide TabsOk, JobsOk, SeenOk;
  }

  /** Merging records exactly the tabs that were and the tabs named. */
  lemma MergeMeans(w: World, tabs: seq<TabId>)
    requires Inv(w) && w.running.Some? && w.running.value.job == Merge(tabs)
    ensures
      var q := Step(w, Committed);
      if w.lock.None? then q.lock.None?
      else q.lock.Some? && Known(q.lock.value.tabIds) == Known(w.lock.value.tabIds) + Known(tabs)
  {
    if w.lock.Some? { UnionIn(w.lock.value.tabIds, tabs); }
    hide Union, TabsOk, JobsOk, SeenOk, SessionOk;
  }

  /** Collecting records exactly the opener closure of the recorded tabs among the tabs it was shown. */
  lemma CollectMeans(w: World)
    requires Inv(w) && w.running.Some? && w.running.value.job.Collect? && w.running.value.seen.Some?
    ensures
      var q := Step(w, Committed);
      && w.lock.Some? && q.lock.Some?
      && forall i: TabId :: i in q.lock.value.tabIds <==> InClosure(w.running.value.seen.value, w.lock.value.tabIds, i)
  {
    hide Descendants, InClosure, TabsOk, JobsOk, SeenOk, SessionOk;
    forall i: TabId ensures i in Descendants(w.running.value.seen.value, w.lock.value.tabIds) <==> InClosure(w.running.value.seen.value, w.lock.value.tabIds, i) {
      ClosureCharacterised(w.running.value.seen.value, w.lock.value.tabIds, i);
    }
  }

  /** The lock is removed exactly if no tab shown is recorded or was opened by a recorded one; in recovery, if the keeper is the only tab shown. */
  lemma FinishMeans(w: World)
    requires Inv(w) && w.running.Some? && w.running.value.seen.Some? && w.lock.Some?
    ensures
      var q, seen, ids := Step(w, Committed), w.running.value.seen.value, w.lock.value.tabIds;
      match w.running.value.job
      case Finish => q.lock == if exists t <- seen :: t.id in ids || (t.opener.Some? && t.opener.value in ids) then w.lock else None
      case FinishRecovery(keeper) => q.lock == if exists t <- seen :: t.id != keeper then w.lock else None
      case _ => true
  {
    hide TabsOk, JobsOk, SeenOk, SessionOk;
  }

  /** A pinned endpoint is never replaced, and an unpinned lock takes the one configured; recovery locks only where nothing is. */
  lemma ConfigureMeans(w: World)
    requires Inv(w) && w.running.Some?
    ensures
      var q := Step(w, Committed);
      match w.running.value.job
      case Configure(api) =>
        q.lock == if w.lock.Some? && w.lock.value.apiBase.None? then Some(w.lock.value.(apiBase := Some(api))) else w.lock
      case Recover(request, api) => q.lock == if w.lock.Some? then w.lock else Some(Lock(None, request, [], Some(api)))
      case EnsureSession => q.lock == w.lock && q.session.Some? && (w.session.Some? ==> q.session == w.session)
      case _ => true
  {
    hide TabsOk, JobsOk, SeenOk, SessionOk;
  }
}
