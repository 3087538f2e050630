/**
 * The disclosure lock of protected fill (apps/browser-extension/src/protected-fill.ts): the lane
 * `writes`, the stored lock, and the browser's tabs.  A closure passed to `exclusive` reads the
 * lock, may look at the tabs, and writes; each of these is a separate step, and tabs come and go
 * in between.
 */
module ProtectedFillState {
  import opened Options

  type TabId = nat
  type Session = nat

  datatype Tab = Tab(id: TabId, opener: Option<TabId>)
  datatype Lock = Lock(session: Option<Session>, request: nat, tabIds: seq<TabId>, apiBase: Option<nat>)

  /** The closures passed to `exclusive`. */
  datatype Job =
    | Track(id: TabId, opener: TabId)
    | Configure(api: nat)
    | Recover(request: nat, recoveredApi: nat)       // the server answered `cleanup_required`
    | Reserve(reserved: nat, tabs: seq<TabId>, base: Option<nat>, sessionAvailable: bool)
    | Merge(merged: seq<TabId>)
    | EnsureSession                                  // recovery makes sure that the browser session has an identity
    | Collect
    | Finish                                         // the end of `complete`, on the session path
    | FinishRecovery(keeper: TabId)                  // the end of `complete`, after the user closed everything

  /** The closure in progress: the lock it read, and the tabs it was shown. */
  datatype Running = Running(job: Job, lock: Option<Lock>, seen: Option<seq<Tab>>)

  datatype World = World(
    lock: Option<Lock>,
    session: Option<Session>,      // chrome.storage.session
    sessions: Session,             // how many were ever made
    tabs: seq<Tab>,
    nextTab: TabId,
    trackingFailed: bool,
    lane: seq<Job>,
    running: Option<Running>)

  const EMPTY := World(None, None, 0, [], 0, false, [], None)

  // ---------------------------------------------------------------- opener descendants

  /** One pass of the `for` loop in `collectTabs`. */
  function Pass(tabs: seq<Tab>, ids: seq<TabId>): seq<TabId>
    decreases |tabs|
  {
    if tabs == [] then ids else Pass(tabs[1..], Visit(tabs[0], ids))
  }

  function Visit(t: Tab, ids: seq<TabId>): seq<TabId> {
    if t.opener.Some? && t.opener.value in ids && t.id !in ids then ids + [t.id] else ids
  }

  function TabIds(tabs: seq<Tab>): set<TabId> {
    set t | t in tabs :: t.id
  }

  function Known(ids: seq<TabId>): set<TabId> {
    set i | i in ids
  }

  /** The `while (added)` loop. */
  function Descendants(tabs: seq<Tab>, ids: seq<TabId>): seq<TabId>
    decreases |TabIds(tabs) - Known(ids)|
  {
    PassGrows(tabs, ids);
    var next := Pass(tabs, ids);
    if next == ids then ids
    else
      Shrinks(tabs, ids, next);
      Descendants(tabs, next)
  }

  lemma {:induction false} PassGrows(tabs: seq<Tab>, ids: seq<TabId>)
    ensures var r := Pass(tabs, ids); ids <= r && (forall i | |ids| <= i < |r| :: r[i] in TabIds(tabs) && r[i] !in ids)
    decreases |tabs|
  {
    if tabs != [] {
      var v := Visit(tabs[0], ids);
      PassGrows(tabs[1..], v);
      assert tabs[0] in tabs;
    }
  }

  lemma Shrinks(tabs: seq<Tab>, ids: seq<TabId>, next: seq<TabId>)
    requires ids <= next && next != ids && next[|ids|] in TabIds(tabs) && next[|ids|] !in ids
    ensures |TabIds(tabs) - Known(next)| < |TabIds(tabs) - Known(ids)|
  {
    var a, b := TabIds(tabs) - Known(ids), TabIds(tabs) - Known(next);
    assert next[|ids|] in a && next[|ids|] !in b;
    assert b <= a - {next[|ids|]};
    Smaller(b, a - {next[|ids|]});
  }

  lemma Smaller(a: set<TabId>, b: set<TabId>)
    requires a <= b
    ensures |a| <= |b|
  {
    assert b == a + (b - a);
  }

  // ---------------------------------------------------------------- the lane

  /** `sameBrowserSession`. */
  predicate SameSession(w: World, l: Lock) {
    l.session.Some? && l.session == w.session
  }

  /** Union without repetition, first occurrences first. */
  function Union(a: seq<TabId>, b: seq<TabId>): seq<TabId>
    decreases |b|
  {
    if b == [] then a else Union(if b[0] in a then a else a + [b[0]], b[1..])
  }

  /** No live tab is recorded or was opened by a recorded tab: the last check of `complete`. */
  predicate NoneLeft(tabs: seq<Tab>, ids: seq<TabId>) {
    forall t | t in tabs :: t.id !in ids && !(t.opener.Some? && t.opener.value in ids)
  }

  function Throw(w: World): World {
    w.(running := None, trackingFailed := w.trackingFailed || (w.running.Some? && w.running.value.job.Track?))
  }

  function Write(w: World, lock: Option<Lock>): World {
    w.(running := None, lock := lock)
  }

  /** `ensureBrowserSession`: an identity that was never used before, if there is none. */
  function WithSession(w: World): World {
    if w.session.Some? then w else w.(session := Some(w.sessions), sessions := w.sessions + 1)
  }

  /** The next closure starts: it reads the lock. */
  function Begin(w: World): World {
    if w.running.Some? || w.lane == [] then w
    else w.(running := Some(Running(w.lane[0], w.lock, None)), lane := w.lane[1..])
  }

  /** `chrome.tabs.query` inside the closure, after its session check. */
  function Query(w: World): World {
    if w.running.None? || w.running.value.seen.Some? then w
    else
      var r := w.running.value;
      match r.job
      case Collect => if w.trackingFailed || r.lock.None? || !SameSession(w, r.lock.value) then Throw(w) else w.(running := Some(r.(seen := Some(w.tabs))))
      case Finish => if w.trackingFailed || r.lock.None? || !SameSession(w, r.lock.value) then Throw(w) else w.(running := Some(r.(seen := Some(w.tabs))))
      case FinishRecovery(_) => if r.lock.None? then Throw(w) else w.(running := Some(r.(seen := Some(w.tabs))))
      case _ => w
  }

  /** The closure writes, or throws. */
  function Commit(w: World): World {
    if w.running.None? then w
    else
      var r := w.running.value;
      match r.job
      case Track(id, opener) =>
        if r.lock.Some? && SameSession(w, r.lock.value) && opener in r.lock.value.tabIds && id !in r.lock.value.tabIds
        then Write(w, Some(r.lock.value.(tabIds := r.lock.value.tabIds + [id])))
        else w.(running := None)
      case Configure(api) =>
        if r.lock.Some? && r.lock.value.apiBase.Some? && r.lock.value.apiBase != Some(api) then Throw(w)
        else if r.lock.Some? && r.lock.value.apiBase.None? then Write(w, Some(r.lock.value.(apiBase := Some(api))))
        else w.(running := None)
      case Recover(request, api) =>
        if r.lock.Some? then Throw(w) else Write(w, Some(Lock(None, request, [], Some(api))))
      case Reserve(request, tabs, api, sessionAvailable) =>
        if r.lock.Some? then Throw(w)
        else if !sessionAvailable then Write(w, Some(Lock(None, request, tabs, api)))
        else Write(WithSession(w), Some(Lock(WithSession(w).session, request, tabs, api)))
      case EnsureSession => WithSession(w).(running := None)
      case Merge(tabs) =>
        if r.lock.None? then Throw(w) else Write(w, Some(r.lock.value.(tabIds := Union(r.lock.value.tabIds, tabs))))
      case Collect =>
        if r.seen.None? || r.lock.None? then w
        else Write(w, Some(r.lock.value.(tabIds := Descendants(r.seen.value, r.lock.value.tabIds))))
      case Finish =>
        if r.seen.None? || r.lock.None? then w
        else if NoneLeft(r.seen.value, r.lock.value.tabIds) then Write(w, None) else Throw(w)
      case FinishRecovery(keeper) =>
        if r.seen.None? then w
        else if forall t | t in r.seen.value :: t.id == keeper then Write(w, None) else Throw(w)
  }

  // ---------------------------------------------------------------- the browser

  function Without(tabs: seq<Tab>, id: TabId): seq<Tab> {
    if tabs == [] then [] else (if tabs[0].id == id then [] else [tabs[0]]) + Without(tabs[1..], id)
  }

  function Forget(tabs: seq<Tab>, id: TabId): seq<Tab> {
    seq(|tabs|, i requires 0 <= i < |tabs| => if tabs[i].id == id then tabs[i].(opener := None) else tabs[i])
  }

  predicate Live(tabs: seq<Tab>, id: TabId) {
    exists t | t in tabs :: t.id == id
  }

  /** The tabs a caller names are tabs of this browser run. */
  predicate Existing(job: Job, next: TabId) {
    match job
    case Track(id, opener) => id < next
    case Reserve(_, tabs, _, _) => forall i <- tabs :: i < next
    case Merge(tabs) => forall i <- tabs :: i < next
    case _ => true
  }

  datatype Event =
    | Enqueued(job: Job)
    | Began
    | Queried
    | Committed
    | Failed                         // storage or a Chrome call throws
    | TabOpened(opener: Option<TabId>)
    | TabClosed(id: TabId)
    | OpenerForgotten(id: TabId)     // the opener is only reported while it exists
    | WorkerRestarted
    | BrowserRestarted

  function Step(w: World, e: Event): World {
    match e
    case Enqueued(job) => if Existing(job, w.nextTab) then w.(lane := w.lane + [job]) else w
    case Began => Begin(w)
    case Queried => Query(w)
    case Committed => Commit(w)
    case Failed => if w.running.Some? then Throw(w) else w
    case TabOpened(opener) =>
      if opener.Some? && !Live(w.tabs, opener.value) then w
      else w.(tabs := w.tabs + [Tab(w.nextTab, opener)], nextTab := w.nextTab + 1)
    case TabClosed(id) => w.(tabs := Without(w.tabs, id))
    case OpenerForgotten(id) => w.(tabs := Forget(w.tabs, id))
    case WorkerRestarted => w.(lane := [], running := None, trackingFailed := false)
    case BrowserRestarted => w.(lane := [], running := None, trackingFailed := false, session := None, tabs := [], nextTab := 0)
  }

  function Exec(w: World, es: seq<Event>): World
    decreases |es|
  {
    if es == [] then w else Exec(Step(w, es[0]), es[1..])
  }
}
