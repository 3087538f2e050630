/** What each of the gate's operations does: who may act at once, who is asked, and which tab is selected. */
module TaskGateHandlers {
  import opened Options
  import opened TaskGateState
  import opened TaskGateTheorems

  // ---------------------------------------------------------------- the selected tab

  predicate Usable(mode: Mode, e: Entry) {
    mode.FullBrowser? || !e.origin.Full?
  }

  function UsableTabs(tabs: seq<Entry>, mode: Mode): seq<Entry> {
    Filter(tabs, (e: Entry) => Usable(mode, e))
  }

  function First(tabs: seq<Entry>): Option<Handle> {
    if tabs == [] then None else Some(tabs[0].handle)
  }

  /** The handle that is selected once `mode` is applied: the one that is, if its tab is usable; otherwise, under task tabs, the first usable. */
  ghost function Selected(g: Gate, mode: Mode): Option<Handle> {
    if mode.FullBrowser? || (exists e :: e in UsableTabs(g.tabs, mode) && g.active == Some(e.handle)) then g.active
    else First(UsableTabs(g.tabs, mode))
  }

  lemma {:induction false} FirstUsable(tabs: seq<Entry>, mode: Mode)
    ensures FirstAllowed(tabs, mode) == First(UsableTabs(tabs, mode))
  {
    if tabs != [] { FirstUsable(tabs[1..], mode); }
  }

  /** `setMode` leaves exactly the usable tabs, and selects. */
  lemma ModeMeans(g: Gate, mode: Mode)
    requires TablesOk(g)
    ensures
      var m := SetMode(g, mode);
      && m.mode == mode && m.tabs == UsableTabs(g.tabs, mode) && m.active == Selected(g, mode)
      && (CurrentEntry(m).Some? <==> Selected(g, mode).Some?)
  {
    hide ScopeOk;
    if mode.FullBrowser? {
      AllUsable(g.tabs, mode);
      if g.active.Some? { Found(g.tabs, g.active.value); }
    } else {
      NarrowMeans(g);
    }
  }

  lemma {:induction false} AllUsable(tabs: seq<Entry>, mode: Mode)
    requires forall e <- tabs :: Usable(mode, e)
    ensures UsableTabs(tabs, mode) == tabs
  {
    if tabs != [] {
      assert tabs[0] in tabs;
      AllUsable(tabs[1..], mode);
    }
  }

  lemma NarrowMeans(g: Gate)
    requires ActiveOk(g.tabs, g.active) && Ascending(g.tabs)
    ensures
      var m := SetMode(g, TaskTabs);
      && m.mode == TaskTabs && m.tabs == UsableTabs(g.tabs, TaskTabs) && m.active == Selected(g, TaskTabs)
      && (CurrentEntry(m).Some? <==> Selected(g, TaskTabs).Some?)
  {
    var k := Keep(g.(mode := TaskTabs), (e: Entry) => !e.origin.Full?);
    var usable := UsableTabs(g.tabs, TaskTabs);
    SameUsable(g.tabs);
    KeptActive(g, k.active);
    hide Keep, Ascending, ActiveOk;
    NarrowedSelects(k, usable);
  }

  /** The narrowed table keeps the selection exactly if its tab is usable. */
  lemma KeptActive(g: Gate, kept: Option<Handle>)
    requires ActiveOk(g.tabs, g.active) && Ascending(g.tabs)
    requires kept == Keep(g.(mode := TaskTabs), (e: Entry) => !e.origin.Full?).active
    ensures kept == if exists e :: e in UsableTabs(g.tabs, TaskTabs) && g.active == Some(e.handle) then g.active else None
  {
    SameHandle(g.tabs);
    var p := (e: Entry) => !e.origin.Full?;
    var removed := Filter(g.tabs, (e: Entry) => !p(e));
    if g.active.Some? {
      var a :| a in g.tabs && a.handle == g.active.value;
      assert a in removed <==> a.origin.Full?;
      assert a in UsableTabs(g.tabs, TaskTabs) <==> !a.origin.Full?;
    }
    hide Filter;
  }

  lemma NarrowedSelects(k: Gate, usable: seq<Entry>)
    requires k.tabs == usable && forall e <- usable :: Usable(TaskTabs, e)
    requires k.active.Some? ==> exists e :: e in usable && k.active == Some(e.handle)
    ensures
      var active := if CurrentEntry(k).None? then FirstAllowed(k.tabs, TaskTabs) else k.active;
      && active == (if k.active.Some? then k.active else First(usable))
      && (CurrentEntry(k.(active := active)).Some? <==> active.Some?)
  {
    FirstUsable(k.tabs, TaskTabs);
    AllUsable(k.tabs, TaskTabs);
    if k.active.Some? { Found(k.tabs, k.active.value); }
    if usable != [] {
      assert usable[0] in usable;
      Found(k.tabs, usable[0].handle);
    }
    hide FirstAllowed, UsableTabs, EntryForHandle;
  }

  lemma {:induction false} SameUsable(tabs: seq<Entry>)
    ensures Filter(tabs, (e: Entry) => !e.origin.Full?) == UsableTabs(tabs, TaskTabs)
  {
    if tabs != [] { SameUsable(tabs[1..]); }
  }

  // ---------------------------------------------------------------- consent

  /** `requireTab` may act at once: not stopped, a tab selected, and the last use at most ten minutes ago. */
  ghost predicate Consented(g: Gate, last: int, mode: Mode, now: int) {
    !g.stopped && Selected(g, mode).Some? && now - last <= 600_000
  }

  ghost predicate Selectable(g: Gate, h: Handle, mode: Mode) {
    exists e :: e in g.tabs && e.handle == h && Usable(mode, e)
  }

  /** The latest grant, selection or accepted command of this run, 0 if there was none since the last end or revocation. */
  ghost function LastUse(es: seq<Event>): int
    decreases |es|
  {
    if es == [] then 0
    else
      var before, e := es[..|es| - 1], es[|es| - 1];
      var g := Exec(EMPTY, before);
      match e
      case RequireTab(mode, now) => if Consented(g, LastUse(before), mode, now) then now else LastUse(before)
      case CallerResumes(i, now) => if MayResume(g, i) && Grants(g, i) then now else LastUse(before)
      case HandleSelected(h, mode, now) => if Selectable(g, h, mode) then now else LastUse(before)
      case ConsentRevoked(_) => 0
      case Stopped => 0
      case TaskEnded => 0
      case _ => LastUse(before)
  }

  /** What `requireTab` does at once: the selected tab is used, and nobody is asked. */
  ghost predicate UsedAtOnce(g: Gate, q: Gate, mode: Mode, now: int) {
    && q.tabs == UsableTabs(g.tabs, mode) && q.active == Selected(g, mode) && q.lastCommandAt == now
    && q.prompts == g.prompts && q.callers == g.callers && q.stopped == g.stopped && q.manualApprovalRequired == g.manualApprovalRequired
  }

  /** What it does otherwise: only created tabs stay, none selected, and the caller waits for the prompt in flight, shown now if there was none. */
  ghost predicate Asked(g: Gate, q: Gate, mode: Mode) {
    && q.active.None? && q.tabs == Filter(UsableTabs(g.tabs, mode), (e: Entry) => e.origin.Created?) && q.lastCommandAt == g.lastCommandAt
    && q.promptInFlight.Some?
    && q.callers == g.callers + [Caller(q.promptInFlight.value, q.promptGeneration, Waiting)]
    && (if g.promptInFlight.Some? then q.prompts == g.prompts && q.promptInFlight == g.promptInFlight && q.promptGeneration == g.promptGeneration
        else q.prompts == g.prompts + [Prompt(!g.stopped && !g.manualApprovalRequired, g.generation, None)]
             && q.promptInFlight == Some(|g.prompts|) && q.promptGeneration == g.generation)
    && q.stopped == g.stopped && q.manualApprovalRequired == g.manualApprovalRequired
  }

  lemma RequireMeans(g: Gate, mode: Mode, now: int)
    requires TablesOk(g)
    ensures
      var q := Step(g, RequireTab(mode, now));
      if Consented(g, g.lastCommandAt, mode, now) then UsedAtOnce(g, q, mode, now) else Asked(g, q, mode)
  {
    hide SetMode, ClearAuthorization, UsableTabs, Selected, TablesOk, Filter, CurrentEntry;
    ModeMeans(g, mode);
    LatchFrame(g, mode);
    JoinFrame(g, mode);
    var m := SetMode(g, mode);
    ModeFrame(g, mode);
    ClearMeans(m);
  }

  lemma ModeFrame(g: Gate, mode: Mode)
    ensures
      var m := SetMode(g, mode);
      m.promptInFlight == g.promptInFlight && m.promptGeneration == g.promptGeneration && m.lastCommandAt == g.lastCommandAt && m.nextHandle == g.nextHandle
  {
    hide FirstAllowed, CurrentEntry, Filter;
  }

  lemma ClearMeans(g: Gate)
    ensures
      var c := ClearAuthorization(g, true);
      c.tabs == Filter(g.tabs, (e: Entry) => e.origin.Created?) && c.active.None? && c.lastCommandAt == g.lastCommandAt
  {
    hide Filter;
  }

  lemma SelectMeans(g: Gate, h: Handle, mode: Mode, now: int)
    requires TablesOk(g)
    ensures
      var q := Step(g, HandleSelected(h, mode, now));
      && q.tabs == UsableTabs(g.tabs, mode) && q.mode == mode
      && (if Selectable(g, h, mode) then q.active == Some(h) && q.lastCommandAt == now else q.active == Selected(g, mode) && q.lastCommandAt == g.lastCommandAt)
  {
    ModeMeans(g, mode);
    ModeFrame(g, mode);
    FoundUsable(g, h, mode);
    hide SetMode, UsableTabs, Selected, TablesOk, Selectable, EntryForHandle;
  }

  lemma FoundUsable(g: Gate, h: Handle, mode: Mode)
    ensures
      var found := EntryForHandle(UsableTabs(g.tabs, mode), h);
      && (found.Some? <==> Selectable(g, h, mode)) && (found.Some? ==> Usable(mode, found.value))
  {
    Found(UsableTabs(g.tabs, mode), h);
  }

  /** A resumed caller whose prompt was allowed in this generation gets that tab, registered and selected, and lifts Stop and the manual requirement; any other only fails. */
  lemma ResumeMeans(g: Gate, i: nat, now: int)
    requires TablesOk(g) && MayResume(g, i)
    ensures
      var q, p := Step(g, CallerResumes(i, now)), g.prompts[g.callers[i].prompt];
      if p.outcome.value.Allowed? && g.callers[i].generation == g.generation
      then
        var t := p.outcome.value.tab;
        && q.callers == g.callers[i := g.callers[i].(answer := Granted(t))] && !q.stopped && !q.manualApprovalRequired && q.lastCommandAt == now
        && (if exists e :: e in g.tabs && e.tab == t
            then q.tabs == g.tabs && exists e :: e in g.tabs && e.tab == t && q.active == Some(e.handle)
            else q.tabs == g.tabs + [Entry(g.nextHandle, t, Approved)] && q.active == Some(g.nextHandle))
      else q == g.(callers := g.callers[i := g.callers[i].(answer := Failed)])
  {
    hide ActiveOk, ScopeOk;
    if Grants(g, i) { FoundTab(g, g.prompts[g.callers[i].prompt].outcome.value.tab); }
    hide EntryForTab, TabsOk;
    if Grants(g, i) { SameTables(g, i, now); }
  }

  lemma SameTables(g: Gate, i: nat, now: int)
    requires MayResume(g, i) && Grants(g, i)
    ensures
      var t := g.prompts[g.callers[i].prompt].outcome.value.tab;
      EntryForTab(g.(stopped := false, manualApprovalRequired := false, lastCommandAt := now,
                     callers := g.callers[i := g.callers[i].(answer := Granted(t))]), t) == EntryForTab(g, t)
  {
  }

  lemma StepKeepsTime(es: seq<Event>, e: Event)
    requires Exec(EMPTY, es).lastCommandAt == LastUse(es)
    ensures Step(Exec(EMPTY, es), e).lastCommandAt == LastUse(es + [e])
  {
    var g := Exec(EMPTY, es);
    assert (es + [e])[..|es|] == es;
    hide Exec, Step, Consented, Selectable, MayResume, Grants, TablesOk;
    ReachableTables(es);
    match e {
      case RequireTab(mode, now) => RequireMeans(g, mode, now);
      case CallerResumes(i, now) => ResumeTime(g, i, now);
      case HandleSelected(h, mode, now) => SelectMeans(g, h, mode, now);
      case _ => OtherTimes(g, e);
    }
  }

  lemma ReachableTables(es: seq<Event>)
    ensures TablesOk(Exec(EMPTY, es))
  {
    hide Exec, ConsentOk, TablesOk;
    ReachableOk(es);
  }

  lemma ResumeTime(g: Gate, i: nat, now: int)
    ensures Step(g, CallerResumes(i, now)).lastCommandAt == if MayResume(g, i) && Grants(g, i) then now else g.lastCommandAt
  {
    hide EntryForTab;
  }

  lemma OtherTimes(g: Gate, e: Event)
    requires !e.RequireTab? && !e.CallerResumes? && !e.HandleSelected?
    ensures Step(g, e).lastCommandAt == if e.ConsentRevoked? || e.Stopped? || e.TaskEnded? then 0 else g.lastCommandAt
  {
    hide FirstAllowed, EntryForTab, EntryForHandle, Filter, CurrentEntry, CreatedEntries;
  }

  lemma {:induction false} TimeOfRun(es: seq<Event>)
    ensures Exec(EMPTY, es).lastCommandAt == LastUse(es)
    decreases |es|
  {
    if es != [] {
      var before, e := es[..|es| - 1], es[|es| - 1];
      hide Exec, LastUse, Step;
      TimeOfRun(before);
      StepKeepsTime(before, e);
      assert before + [e] == es;
      ExecSnoc(EMPTY, before, e);
    }
  }

  /**
   * When `requireTab` asks.  After any run it uses the selected tab at once if and only if the gate is not
   * stopped, a tab is selected once the mode is applied, and the latest grant, selection or accepted
   * command since the last end or revocation is at most 600 000 ms old; otherwise it drops every
   * authorization but the created tabs and waits for a prompt.
   */
  lemma RequireAsksExactlyWhen(es: seq<Event>, mode: Mode, now: int)
    ensures
      var g := Exec(EMPTY, es);
      var q := Step(g, RequireTab(mode, now));
      if !g.stopped && Selected(g, mode).Some? && now - LastUse(es) <= 600_000 then UsedAtOnce(g, q, mode, now) else Asked(g, q, mode)
  {
    hide Exec, Step, LastUse, TablesOk, UsedAtOnce, Asked, Selected;
    ReachableTables(es);
    TimeOfRun(es);
    RequireMeans(Exec(EMPTY, es), mode, now);
  }

  // ---------------------------------------------------------------- the tables' own operations

  /** Opening a tab registers it, unless it is known or eight created tabs are registered. */
  lemma CreatedMeans(g: Gate, t: Tab, makeActive: bool)
    requires TablesOk(g)
    ensures
      var q := Step(g, TabCreated(t, makeActive));
      if exists e :: e in g.tabs && e.tab == t
      then q.tabs == g.tabs && (if makeActive then exists e :: e in g.tabs && e.tab == t && q.active == Some(e.handle) else q == g)
      else if |CreatedEntries(g.tabs)| >= 8 then q == g
      else q.tabs == g.tabs + [Entry(g.nextHandle, t, Created)] && q.active == if makeActive then Some(g.nextHandle) else g.active
  {
    hide ActiveOk, ScopeOk, CreatedEntries;
    FoundTab(g, t);
    hide EntryForTab, TabsOk;
  }

  /** A closed tab is forgotten; if it was selected, the first one left that the mode allows is. */
  lemma RemovalMeans(g: Gate, t: Tab)
    requires TablesOk(g)
    ensures
      var q, left := Step(g, TabRemoved(t)), Filter(g.tabs, (e: Entry) => e.tab != t);
      && q.tabs == left
      && q.active == if exists e :: e in g.tabs && e.tab == t && g.active == Some(e.handle) then First(UsableTabs(left, g.mode)) else g.active
  {
    hide ActiveOk, ScopeOk, FirstAllowed;
    FoundTab(g, t);
    if EntryForTab(g, t).Some? {
      var e := EntryForTab(g, t).value;
      hide EntryForTab;
      RemovedMeans(g, e);
      FirstUsable(Filter(g.tabs, (x: Entry) => x.tab != t), g.mode);
    } else {
      AllStay(g.tabs, t);
    }
  }

  lemma {:induction false} AllStay(tabs: seq<Entry>, t: Tab)
    requires forall e <- tabs :: e.tab != t
    ensures Filter(tabs, (e: Entry) => e.tab != t) == tabs
  {
    if tabs != [] {
      assert tabs[0] in tabs;
      AllStay(tabs[1..], t);
    }
  }

  lemma RemovedMeans(g: Gate, x: Entry)
    requires TabsOk(g.tabs, g.handleByTab, g.nextHandle) && x in g.tabs
    ensures
      var k := Keep(g, (e: Entry) => e != x);
      && k.tabs == Filter(g.tabs, (e: Entry) => e.tab != x.tab) && k.mode == g.mode
      && (g.active != Some(x.handle) ==> k.active == g.active)
      && forall e <- g.tabs :: e.tab == x.tab ==> e == x
  {
    SameHandle(g.tabs);
    assert forall e <- g.tabs :: e.tab == x.tab ==> e == x;
    hide TabsOk, Ascending;
    SameRemoval(g.tabs, x);
    var p := (e: Entry) => e != x;
    var removed := Filter(g.tabs, (e: Entry) => !p(e));
    assert forall e <- removed :: e == x;
  }

  lemma {:induction false} SameRemoval(tabs: seq<Entry>, x: Entry)
    requires forall e <- tabs :: e.tab == x.tab ==> e == x
    ensures Filter(tabs, (e: Entry) => e != x) == Filter(tabs, (e: Entry) => e.tab != x.tab)
  {
    if tabs != [] {
      assert tabs[0] in tabs;
      SameRemoval(tabs[1..], x);
    }
  }

  /** Revoking keeps only created tabs and selects none; ending a task forgets every tab; Stop ends it and latches. */
  lemma EndMeans(g: Gate, manual: bool)
    ensures
      var r, e, s := Step(g, ConsentRevoked(manual)), Step(g, TaskEnded), Step(g, Stopped);
      && r.tabs == Filter(g.tabs, (x: Entry) => x.origin.Created?) && r.active.None? && r.stopped == g.stopped
      && r.manualApprovalRequired == (g.manualApprovalRequired || manual) && r.generation == g.generation
      && e.tabs == s.tabs == [] && e.handleByTab == s.handleByTab == map[] && e.active.None? && s.active.None?
      && e.generation == s.generation == g.generation + 1 && e.stopped == g.stopped && s.stopped
      && e.prompts == s.prompts == g.prompts && e.callers == s.callers == g.callers && e.nextHandle == s.nextHandle == g.nextHandle
  {
    hide Filter;
  }
}
