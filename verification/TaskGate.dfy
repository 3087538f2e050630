/**
 * The gate as the object it is; `g` is the record of its fields, `Map` iteration is a loop over a
 * copy of `tabs`.  Every method takes exactly the step `TaskGateState.Step` says.
 */
module TaskGate {
  import opened Options
  import opened TaskGateState
  import TaskGateTheorems
  import opened TaskGateHandlers

  class TaskGate {
    var g: Gate
    ghost var trace: seq<Event>

    ghost predicate Valid()
      reads this
    {
      g == Exec(EMPTY, trace)
    }

    constructor ()
      ensures Valid() && trace == []
    {
      g, trace := EMPTY, [];
    }

    ghost method Record(e: Event, before: Gate)
      requires before == Exec(EMPTY, trace) && g == Step(before, e)
      modifies this`trace
      ensures Valid() && trace == old(trace) + [e]
    {
      hide Step;
      TaskGateTheorems.ExecSnoc(EMPTY, trace, e);
      trace := trace + [e];
    }

    // ---------------------------------------------------------------- the tab tables

    /** `removeEntry`. */
    method RemoveEntry(entry: Entry)
      modifies this`g
      ensures g == old(g).(tabs := Filter(old(g).tabs, Except(entry.handle)),
                           handleByTab := old(g).handleByTab - {entry.tab},
                           active := if old(g).active == Some(entry.handle) then None else old(g).active)
    {
      var tabs := [];
      var i := 0;
      while i < |g.tabs|
        invariant i <= |g.tabs| && g == old(g)
        invariant tabs == Filter(g.tabs[..i], Except(entry.handle))
      {
        FilterSnoc(g.tabs, i, Except(entry.handle));
        if g.tabs[i].handle != entry.handle { tabs := tabs + [g.tabs[i]]; }
        i := i + 1;
      }
      assert g.tabs[..i] == g.tabs;
      g := g.(tabs := tabs, handleByTab := g.handleByTab - {entry.tab});
      if g.active == Some(entry.handle) { g := g.(active := None); }
    }

    /** `for (const entry of [...this.tabs.values()]) if (...) this.removeEntry(entry)`. */
    method KeepOnly(p: Entry -> bool)
      requires Ascending(g.tabs)
      modifies this`g
      ensures g == Keep(old(g), p)
    {
      hide Filter, TabSet;
      var tabs := g.tabs;
      ghost var g0 := g;
      var i := 0;
      NothingRemoved(g0, p);
      while i < |tabs|
        invariant i <= |tabs| && g == Removed(g0, i, p)
      {
        OneRemoved(g0, i, p);
        if !p(tabs[i]) { RemoveEntry(tabs[i]); }
        i := i + 1;
      }
      AllRemoved(g0, p);
    }

    /** `setMode`. */
    method ApplyMode(mode: Mode)
      requires Ascending(g.tabs)
      modifies this`g
      ensures g == SetMode(old(g), mode) && Ascending(g.tabs)
    {
      hide Filter, Keep;
      g := g.(mode := mode);
      if mode.FullBrowser? { return; }
      ghost var p := (e: Entry) => !e.origin.Full?;
      TaskGateTheorems.FilterAscends(g.tabs, p);
      TaskGateTheorems.KeepTabs(g, p);
      KeepOnly((e: Entry) => !e.origin.Full?);
      if CurrentEntry(g).None? {
        g := g.(active := FirstAllowed(g.tabs, mode));
      }
    }

    /** `clearAuthorization`. */
    method Clear(preserveCreated: bool)
      requires Ascending(g.tabs)
      modifies this`g
      ensures g == ClearAuthorization(old(g), preserveCreated)
    {
      hide Filter, Keep;
      if preserveCreated {
        KeepOnly((e: Entry) => e.origin.Created?);
      } else {
        g := g.(tabs := [], handleByTab := map[]);
      }
      g := g.(active := None);
    }

    /** `register`. */
    method Add(t: Tab, origin: Origin, makeActive: bool)
      modifies this`g
      ensures g == Register(old(g), t, origin, makeActive)
    {
      var handle := g.nextHandle;
      g := g.(nextHandle := handle + 1, tabs := g.tabs + [Entry(handle, t, origin)]);
      g := g.(handleByTab := g.handleByTab[t := handle]);
      if makeActive { g := g.(active := Some(handle)); }
    }

    // ---------------------------------------------------------------- operations

    /** `requireTab` up to its `await`: the selected tab if it may be used at once, and otherwise the caller waits. */
    method RequireTab(mode: Mode, now: int) returns (tab: Option<Tab>)
      requires Valid()
      modifies this
      ensures Valid() && trace == old(trace) + [Event.RequireTab(mode, now)]
      ensures tab.Some? <==> !old(g).stopped && Selected(old(g), mode).Some? && now - LastUse(old(trace)) <= 600_000
      ensures if tab.Some? then UsedAtOnce(old(g), g, mode, now) && IsActive(g, tab.value) else Asked(old(g), g, mode)
    {
      hide Exec, SetMode, ClearAuthorization, Filter, Selected, LastUse, UsedAtOnce, Asked, IsActive;
      TablesAscend(trace);
      ConsentOfRun(g, trace, mode, now);
      ghost var before := g;
      ApplyMode(mode);
      tab := None;
      var current := CurrentEntry(g);
      if !g.stopped && current.Some? && now - g.lastCommandAt <= CONSENT_IDLE_RESET_MS {
        g := g.(lastCommandAt := now);
        tab := Some(current.value.tab);
      } else {
        Clear(true);
        if g.promptInFlight.None? {
          g := g.(promptGeneration := g.generation, promptInFlight := Some(|g.prompts|),
                  prompts := g.prompts + [Prompt(!g.stopped && !g.manualApprovalRequired, g.generation, None)]);
        }
        g := g.(callers := g.callers + [Caller(g.promptInFlight.value, g.promptGeneration, Waiting)]);
      }
      Record(Event.RequireTab(mode, now), before);
    }

    /** `requireTab` after its `await`. */
    method ResumeCaller(i: nat, now: int)
      requires Valid() && MayResume(g, i)
      modifies this
      ensures Valid() && trace == old(trace) + [CallerResumes(i, now)]
    {
      hide Exec, EntryForTab;
      ghost var before := g;
      var caller := g.callers[i];
      var outcome := g.prompts[caller.prompt].outcome.value;
      if outcome.Refused? || g.generation != caller.generation {
        g := g.(callers := g.callers[i := caller.(answer := Failed)]);
      } else {
        var t := outcome.tab;
        SameEntries(g, t);
        g := g.(stopped := false);
        g := g.(manualApprovalRequired := false);
        var existing := EntryForTab(g, t);
        g := g.(lastCommandAt := now, callers := g.callers[i := caller.(answer := Granted(t))]);
        if existing.Some? {
          g := g.(active := Some(existing.value.handle));
        } else {
          Add(t, Approved, true);
        }
      }
      Record(CallerResumes(i, now), before);
    }

    /** `registerCreatedTab`; `None` is the `tab_limit` error. */
    method RegisterCreatedTab(t: Tab, makeActive: bool) returns (handle: Option<Handle>)
      requires Valid()
      modifies this
      ensures Valid() && trace == old(trace) + [TabCreated(t, makeActive)]
      ensures handle.Some? ==> EntryForHandle(g.tabs, handle.value).Some? && EntryForHandle(g.tabs, handle.value).value.tab == t
      ensures handle.None? <==> EntryForTab(old(g), t).None? && |CreatedEntries(old(g).tabs)| >= MAX_TASK_CREATED_TABS
    {
      hide Exec, CreatedEntries;
      ghost var before := g;
      TablesOfRun(trace);
      TaskGateTheorems.FoundTab(g, t);
      var existing := EntryForTab(g, t);
      if existing.Some? {
        if makeActive { g := g.(active := Some(existing.value.handle)); }
        handle := Some(existing.value.handle);
      } else if |CreatedEntries(g.tabs)| >= MAX_TASK_CREATED_TABS {
        handle := None;
      } else {
        handle := Some(g.nextHandle);
        NewIsFound(g.tabs, Entry(g.nextHandle, t, Created));
        Add(t, Created, makeActive);
      }
      Record(TabCreated(t, makeActive), before);
    }

    /** `endTask`, and `stop` which latches first: the created tabs are the caller's to close. */
    method End(latch: bool) returns (created: seq<Tab>)
      requires Valid()
      modifies this
      ensures Valid() && trace == old(trace) + [if latch then Stopped else TaskEnded]
      ensures created == TabsOf(CreatedEntries(old(g).tabs))
      ensures created == OpenCreated(old(trace))
    {
      hide Exec, Filter;
      TablesAscend(trace);
      OpenCreatedIsTable(trace);
      ghost var before := g;
      if latch { g := g.(stopped := true); }
      created := CreatedTabIds();
      g := g.(generation := g.generation + 1);
      Clear(false);
      g := g.(lastCommandAt := 0);
      Record(if latch then Stopped else TaskEnded, before);
    }

    /** `createdTabIds`. */
    method CreatedTabIds() returns (created: seq<Tab>)
      ensures created == TabsOf(CreatedEntries(g.tabs))
    {
      created := [];
      for i := 0 to |g.tabs|
        invariant created == TabsOf(CreatedEntries(g.tabs[..i]))
      {
        FilterSnoc(g.tabs, i, (e: Entry) => e.origin.Created?);
        if g.tabs[i].origin.Created? { created := created + [g.tabs[i].tab]; }
      }
      assert g.tabs[..|g.tabs|] == g.tabs;
    }

    /** `revokeConsent`. */
    method RevokeConsent(requireManualApproval: bool)
      requires Valid()
      modifies this
      ensures Valid() && trace == old(trace) + [ConsentRevoked(requireManualApproval)]
    {
      hide Exec, Filter, ClearAuthorization;
      TablesAscend(trace);
      ClearKeepsFlags(g);
      ghost var before := g;
      Clear(true);
      g := g.(lastCommandAt := 0);
      if requireManualApproval { g := g.(manualApprovalRequired := true); }
      Record(ConsentRevoked(requireManualApproval), before);
    }

    /** The prompt's promise settles; its `finally` clears the slot. */
    method PromptAnswered(i: nat, outcome: Outcome)
      requires Valid() && i < |g.prompts| && g.prompts[i].outcome.None?
      modifies this
      ensures Valid() && trace == old(trace) + [PromptSettles(i, outcome)]
    {
      hide Exec;
      ghost var before := g;
      g := g.(prompts := g.prompts[i := g.prompts[i].(outcome := Some(outcome))]);
      g := g.(promptInFlight := None);
      Record(PromptSettles(i, outcome), before);
    }

    /** `registerFullTab`; `None` is the scope error. */
    method RegisterFullTab(t: Tab) returns (handle: Option<Handle>)
      requires Valid()
      modifies this
      ensures Valid() && trace == old(trace) + [FullTabFound(t)]
      ensures handle.None? <==> EntryForTab(old(g), t).None? && old(g).mode.TaskTabs?
    {
      hide Exec;
      ghost var before := g;
      var existing := EntryForTab(g, t);
      if existing.Some? {
        handle := Some(existing.value.handle);
      } else if g.mode.TaskTabs? {
        handle := None;
      } else {
        handle := Some(g.nextHandle);
        Add(t, Full, false);
      }
      Record(FullTabFound(t), before);
    }

    /** `selectHandle`; `None` is the scope error. */
    method SelectHandle(h: Handle, mode: Mode, now: int) returns (tab: Option<Tab>)
      requires Valid()
      modifies this
      ensures Valid() && trace == old(trace) + [HandleSelected(h, mode, now)]
      ensures tab.Some? ==> g.active == Some(h)
    {
      hide Exec, SetMode, EntryForHandle, Filter;
      TablesAscend(trace);
      ghost var before := g;
      ApplyMode(mode);
      var entry := EntryForHandle(g.tabs, h);
      if entry.None? || (mode.TaskTabs? && entry.value.origin.Full?) {
        tab := None;
      } else {
        g := g.(active := Some(h));
        g := g.(lastCommandAt := now);
        tab := Some(entry.value.tab);
      }
      Record(HandleSelected(h, mode, now), before);
    }

    /** `onTabRemoved`: whether the closed tab was the selected one. */
    method OnTabRemoved(t: Tab) returns (wasCurrent: bool)
      requires Valid()
      modifies this
      ensures Valid() && trace == old(trace) + [TabRemoved(t)]
      ensures wasCurrent <==> EntryForTab(old(g), t).Some? && old(g).active == Some(EntryForTab(old(g), t).value.handle)
    {
      hide Exec, EntryForTab, EntryForHandle, FirstAllowed, Filter;
      TablesOfRun(trace);
      TaskGateTheorems.FoundTab(g, t);
      ghost var before := g;
      var entry := EntryForTab(g, t);
      if entry.None? {
        wasCurrent := false;
      } else {
        wasCurrent := g.active == Some(entry.value.handle);
        RemovalIsKeep(g, entry.value);
        RemoveEntry(entry.value);
        if wasCurrent { g := g.(active := FirstAllowed(g.tabs, g.mode)); }
      }
      Record(TabRemoved(t), before);
    }
  }

  /** The tab is registered under the selected handle. */
  ghost predicate IsActive(g: Gate, t: Tab) {
    exists e :: e in g.tabs && e.tab == t && g.active == Some(e.handle)
  }

  lemma ConsentOfRun(g: Gate, es: seq<Event>, mode: Mode, now: int)
    requires g == Exec(EMPTY, es)
    ensures
      var m, q := SetMode(g, mode), Step(g, Event.RequireTab(mode, now));
      var used := !m.stopped && CurrentEntry(m).Some? && now - m.lastCommandAt <= CONSENT_IDLE_RESET_MS;
      && (used <==> !g.stopped && Selected(g, mode).Some? && now - LastUse(es) <= 600_000)
      && (if used then UsedAtOnce(g, q, mode, now) && IsActive(q, CurrentEntry(m).value.tab) else Asked(g, q, mode))
  {
    hide Exec, LastUse, Selected, UsedAtOnce, Asked, SetMode, ClearAuthorization, IsActive;
    RequireAsksExactlyWhen(es, mode, now);
    ReachableTables(es);
    ModeMeans(g, mode);
    ModeFrame(g, mode);
    TaskGateTheorems.LatchFrame(g, mode);
    TimeOfRun(es);
    CurrentIsActive(SetMode(g, mode), now);
  }

  lemma CurrentIsActive(m: Gate, now: int)
    ensures CurrentEntry(m).Some? ==> IsActive(m.(lastCommandAt := now), CurrentEntry(m).value.tab)
  {
    if m.active.Some? { TaskGateTheorems.Found(m.tabs, m.active.value); }
  }

  lemma RemovalIsKeep(g: Gate, x: Entry)
    requires TabsOk(g.tabs, g.handleByTab, g.nextHandle) && x in g.tabs
    ensures
      var k := Keep(g, (e: Entry) => e != x);
      && k.tabs == Filter(g.tabs, Except(x.handle)) && k.handleByTab == g.handleByTab - {x.tab}
      && k == g.(tabs := k.tabs, handleByTab := k.handleByTab, active := if g.active == Some(x.handle) then None else g.active)
  {
    var p := (e: Entry) => e != x;
    var removed := Filter(g.tabs, (e: Entry) => !p(e));
    hide TabsOk, Filter, Except, TabSet;
    NoOtherHandle(g, x);
    SameFilter(g.tabs, p, Except(x.handle));
    OnlyEntry(removed, x, g.active);
  }

  lemma NoOtherHandle(g: Gate, x: Entry)
    requires TabsOk(g.tabs, g.handleByTab, g.nextHandle) && x in g.tabs
    ensures forall e <- g.tabs :: e != x <==> Except(x.handle)(e)
  {
    TaskGateTheorems.SameHandle(g.tabs);
  }

  lemma OnlyEntry(es: seq<Entry>, x: Entry, active: Option<Handle>)
    requires x in es && forall e <- es :: e == x
    ensures TabSet(es) == {x.tab} && ((exists e :: e in es && active == Some(e.handle)) <==> active == Some(x.handle))
  {
  }

  lemma {:induction false} SameFilter(tabs: seq<Entry>, p: Entry -> bool, q: Entry -> bool)
    requires forall e <- tabs :: p(e) == q(e)
    ensures Filter(tabs, p) == Filter(tabs, q)
  {
    if tabs != [] {
      assert tabs[0] in tabs;
      SameFilter(tabs[1..], p, q);
    }
  }

  /** The created tabs open after a run, from its registrations, removals and ends. */
  ghost function OpenCreated(es: seq<Event>): seq<Tab> {
    TaskGateTheorems.OpenCreated(EMPTY, es, [])
  }

  lemma OpenCreatedIsTable(es: seq<Event>)
    ensures OpenCreated(es) == TabsOf(CreatedEntries(Exec(EMPTY, es).tabs))
  {
    hide Exec, Step;
    TaskGateTheorems.EndReturnsOpenCreatedTabs(EMPTY, es);
  }

  lemma TablesOfRun(es: seq<Event>)
    ensures var g := Exec(EMPTY, es); TabsOk(g.tabs, g.handleByTab, g.nextHandle)
  {
    hide Exec;
    TaskGateTheorems.ReachableOk(es);
  }

  lemma TablesAscend(es: seq<Event>)
    ensures Ascending(Exec(EMPTY, es).tabs)
  {
    hide Exec;
    TaskGateTheorems.ReachableOk(es);
  }

  lemma ClearKeepsFlags(g: Gate)
    ensures ClearAuthorization(g, true).manualApprovalRequired == g.manualApprovalRequired
  {
  }

  lemma SameEntries(g: Gate, t: Tab)
    ensures EntryForTab(g.(stopped := false, manualApprovalRequired := false), t) == EntryForTab(g, t)
  {
  }

  lemma {:induction false} NewIsFound(tabs: seq<Entry>, n: Entry)
    requires forall e <- tabs :: e.handle < n.handle
    ensures EntryForHandle(tabs + [n], n.handle) == Some(n)
  {
    if tabs == [] {
      assert tabs + [n] == [n];
    } else {
      assert tabs[0] in tabs && (tabs + [n])[1..] == tabs[1..] + [n];
      NewIsFound(tabs[1..], n);
    }
  }

  // ---------------------------------------------------------------- the removal loop

  lemma FilterSnoc(tabs: seq<Entry>, i: nat, p: Entry -> bool)
    requires i < |tabs|
    ensures Filter(tabs[..i + 1], p) == Filter(tabs[..i], p) + if p(tabs[i]) then [tabs[i]] else []
  {
    assert tabs[..i + 1] == tabs[..i] + [tabs[i]];
    TaskGateTheorems.FilterAppend(tabs[..i], [tabs[i]], p);
    assert [tabs[i]][1..] == [];
  }

  function Except(h: Handle): Entry -> bool {
    (e: Entry) => e.handle != h
  }

  function Not(p: Entry -> bool): Entry -> bool {
    (e: Entry) => !p(e)
  }

  /** After the first `i` entries have been visited. */
  ghost function Removed(g: Gate, i: nat, p: Entry -> bool): Gate
    requires i <= |g.tabs|
  {
    var removed := Filter(g.tabs[..i], Not(p));
    g.(tabs := Filter(g.tabs[..i], p) + g.tabs[i..],
       handleByTab := g.handleByTab - TabSet(removed),
       active := if Lost(g.active, removed) then None else g.active)
  }

  ghost predicate Lost(active: Option<Handle>, removed: seq<Entry>) {
    exists e :: e in removed && active == Some(e.handle)
  }

  lemma NothingRemoved(g: Gate, p: Entry -> bool)
    ensures Removed(g, 0, p) == g
  {
    assert g.tabs[..0] == [];
    assert g.handleByTab - {} == g.handleByTab;
    assert TabSet([]) == {};
  }

  lemma AllRemoved(g: Gate, p: Entry -> bool)
    ensures Removed(g, |g.tabs|, p) == Keep(g, p)
  {
    hide Filter;
    assert g.tabs[..|g.tabs|] == g.tabs;
  }

  lemma FilterOne(e: Entry, p: Entry -> bool)
    ensures Filter([e], p) == if p(e) then [e] else []
  {
    assert [e][1..] == [];
  }

  /** Removing one entry of an ascending table by its handle. */
  lemma RemoveMiddle(a: seq<Entry>, e: Entry, b: seq<Entry>, p: Entry -> bool)
    requires forall x | x in a :: p(x)
    requires forall x | x in b :: p(x)
    requires !p(e)
    ensures Filter(a + [e] + b, p) == a + b
  {
    hide Filter;
    FilterOne(e, p);
    TaskGateTheorems.FilterAppend(a + [e], b, p);
    TaskGateTheorems.FilterAppend(a, [e], p);
    TaskGateTheorems.FilterAll(a, p);
    TaskGateTheorems.FilterAll(b, p);
  }

  lemma Others(tabs: seq<Entry>, i: nat)
    requires Ascending(tabs) && i < |tabs|
    ensures forall x | x in tabs[..i] || x in tabs[i + 1..] :: x.handle != tabs[i].handle
  {
  }

  lemma OneLess(tabs: seq<Entry>, i: nat, kept: seq<Entry>)
    requires Ascending(tabs) && i < |tabs| && forall x | x in kept :: x in tabs[..i]
    ensures Filter(kept + tabs[i..], Except(tabs[i].handle)) == kept + tabs[i + 1..]
  {
    hide Filter, Ascending;
    Others(tabs, i);
    Shift(kept, tabs, i);
    RemoveMiddle(kept, tabs[i], tabs[i + 1..], Except(tabs[i].handle));
  }

  lemma TabsAfterOne(tabs: seq<Entry>, i: nat, p: Entry -> bool)
    requires Ascending(tabs) && i < |tabs|
    ensures
      var before := Filter(tabs[..i], p) + tabs[i..];
      Filter(tabs[..i + 1], p) + tabs[i + 1..] == if p(tabs[i]) then before else Filter(before, Except(tabs[i].handle))
  {
    FilterSnoc(tabs, i, p);
    var kept := Filter(tabs[..i], p);
    OneLess(tabs, i, kept);
    hide Filter, Ascending, Except;
    Shift(kept, tabs, i);
    assert kept + [] == kept;
  }

  lemma Shift(kept: seq<Entry>, tabs: seq<Entry>, i: nat)
    requires i < |tabs|
    ensures kept + [tabs[i]] + tabs[i + 1..] == kept + tabs[i..]
  {
  }

  lemma OneRemoved(g: Gate, i: nat, p: Entry -> bool)
    requires Ascending(g.tabs) && i < |g.tabs|
    ensures
      var e := g.tabs[i];
      var r := Removed(g, i, p);
      Removed(g, i + 1, p) ==
      if p(e) then r
      else r.(tabs := Filter(r.tabs, Except(e.handle)),
              handleByTab := r.handleByTab - {e.tab},
              active := if r.active == Some(e.handle) then None else r.active)
  {
    hide Filter, TabSet, Ascending, Lost, Except;
    TabsAfterOne(g.tabs, i, p);
    FilterSnoc(g.tabs, i, Not(p));
    var gone := Filter(g.tabs[..i], Not(p));
    OneMoreRemoved(g, gone, g.tabs[i]);
    assert gone + [] == gone;
  }

  lemma OneMoreRemoved(g: Gate, removed: seq<Entry>, e: Entry)
    ensures g.handleByTab - TabSet(removed + [e]) == g.handleByTab - TabSet(removed) - {e.tab}
    ensures Lost(g.active, removed + [e]) <==> Lost(g.active, removed) || g.active == Some(e.handle)
  {
    assert TabSet(removed + [e]) == TabSet(removed) + {e.tab};
    assert e in removed + [e];
    forall x | x in removed ensures x in removed + [e] {
    }
  }
}
