/** What the gate promises over every run, for any number of concurrent `requireTab` callers. */
module TaskGateTheorems {
  import opened Options
  import opened TaskGateState

  // ---------------------------------------------------------------- tables

  /** Filtering keeps the order. */
  lemma {:induction false} FilterAscends(tabs: seq<Entry>, p: Entry -> bool)
    requires Ascending(tabs)
    ensures Ascending(Filter(tabs, p))
  {
    if tabs != [] {
      FilterAscends(tabs[1..], p);
      var rest := Filter(tabs[1..], p);
      forall j | 0 <= j < |rest| ensures tabs[0].handle < rest[j].handle {
        assert rest[j] in rest && rest[j] in tabs[1..];
      }
    }
  }

  lemma {:induction false} FilterAppend(a: seq<Entry>, b: seq<Entry>, p: Entry -> bool)
    ensures Filter(a + b, p) == Filter(a, p) + Filter(b, p)
  {
    if a == [] {
      assert a + b == b;
    } else {
      assert (a + b)[1..] == a[1..] + b;
      FilterAppend(a[1..], b, p);
    }
  }

  lemma {:induction false} FilterSame(tabs: seq<Entry>, p: Entry -> bool, q: Entry -> bool)
    requires forall e <- tabs :: p(e) ==> q(e)
    ensures Filter(Filter(tabs, q), p) == Filter(tabs, p)
  {
    if tabs != [] {
      FilterSame(tabs[1..], p, q);
      var head := if q(tabs[0]) then [tabs[0]] else [];
      FilterAppend(head, Filter(tabs[1..], q), p);
      assert head == [] || head[1..] == [];
    }
  }

  lemma {:induction false} Found(tabs: seq<Entry>, h: Handle)
    ensures EntryForHandle(tabs, h).Some? ==> EntryForHandle(tabs, h).value in tabs && EntryForHandle(tabs, h).value.handle == h
    ensures EntryForHandle(tabs, h).None? ==> forall e <- tabs :: e.handle != h
  {
    if tabs != [] {
      Found(tabs[1..], h);
    }
  }

  /** A registered tab is found, and only a registered one. */
  lemma FoundTab(g: Gate, t: Tab)
    requires TabsOk(g.tabs, g.handleByTab, g.nextHandle)
    ensures EntryForTab(g, t).Some? <==> t in g.handleByTab
    ensures EntryForTab(g, t).Some? ==> EntryForTab(g, t).value in g.tabs && EntryForTab(g, t).value.tab == t
    ensures EntryForTab(g, t).None? ==> forall e <- g.tabs :: e.tab != t
  {
    if t in g.handleByTab {
      Found(g.tabs, g.handleByTab[t]);
      var e :| e in g.tabs && e.tab == t;
      SameHandle(g.tabs);
    }
  }

  lemma SameHandle(tabs: seq<Entry>)
    requires Ascending(tabs)
    ensures forall a, b | a in tabs && b in tabs && a.handle == b.handle :: a == b
  {
  }

  lemma {:induction false} FirstIsAllowed(tabs: seq<Entry>, mode: Mode)
    ensures ActiveOk(tabs, FirstAllowed(tabs, mode))
  {
    if tabs != [] {
      FirstIsAllowed(tabs[1..], mode);
      if FirstAllowed(tabs[1..], mode).Some? {
        var e :| e in tabs[1..] && e.handle == FirstAllowed(tabs[1..], mode).value;
        assert e in tabs;
      }
      assert tabs[0] in tabs;
    }
  }

  lemma KeepTables(g: Gate, p: Entry -> bool)
    requires TablesOk(g)
    ensures TablesOk(Keep(g, p))
    ensures (forall e <- g.tabs :: e.origin.Created? ==> p(e)) ==> CreatedEntries(Keep(g, p).tabs) == CreatedEntries(g.tabs)
  {
    var k := Keep(g, p);
    var removed := Filter(g.tabs, (e: Entry) => !p(e));
    FilterAscends(g.tabs, p);
    KeepInverse(g, p);
    if k.active.Some? {
      var e :| e in g.tabs && e.handle == g.active.value;
      assert e in k.tabs || e in removed;
    }
    FewerCreated(g.tabs, p);
    if forall e <- g.tabs :: e.origin.Created? ==> p(e) {
      FilterSame(g.tabs, (e: Entry) => e.origin.Created?, p);
    }
  }

  lemma KeepInverse(g: Gate, p: Entry -> bool)
    requires TabsOk(g.tabs, g.handleByTab, g.nextHandle)
    ensures
      var k := Keep(g, p);
      && (forall e <- k.tabs :: e.handle < k.nextHandle && e.tab in k.handleByTab && k.handleByTab[e.tab] == e.handle)
      && (forall t <- k.handleByTab :: exists e :: e in k.tabs && e.tab == t)
  {
    var k := Keep(g, p);
    var removed := Filter(g.tabs, (e: Entry) => !p(e));
    SameHandle(g.tabs);
    forall e, r | e in k.tabs && r in removed ensures e.tab != r.tab {
    }
    forall t | t in k.handleByTab ensures exists e :: e in k.tabs && e.tab == t {
      var e :| e in g.tabs && e.tab == t;
      assert e in k.tabs || e in removed;
    }
  }

  lemma {:induction false} FewerCreated(tabs: seq<Entry>, p: Entry -> bool)
    ensures |CreatedEntries(Filter(tabs, p))| <= |CreatedEntries(tabs)|
  {
    if tabs != [] {
      FewerCreated(tabs[1..], p);
      var head := if p(tabs[0]) then [tabs[0]] else [];
      FilterAppend(head, Filter(tabs[1..], p), (e: Entry) => e.origin.Created?);
    }
  }

  lemma RegisterTabs(tabs: seq<Entry>, handleByTab: map<Tab, Handle>, nextHandle: Handle, n: Entry)
    requires TabsOk(tabs, handleByTab, nextHandle) && n.handle == nextHandle && n.tab !in handleByTab
    ensures TabsOk(tabs + [n], handleByTab[n.tab := nextHandle], nextHandle + 1)
  {
    var grown := handleByTab[n.tab := nextHandle];
    forall x | x in grown ensures exists e :: e in tabs + [n] && e.tab == x {
      if x == n.tab {
        assert n in tabs + [n];
      } else {
        var e :| e in tabs && e.tab == x;
        assert e in tabs + [n];
      }
    }
  }

  lemma RegisterActive(tabs: seq<Entry>, active: Option<Handle>, n: Entry)
    requires ActiveOk(tabs, active)
    ensures ActiveOk(tabs + [n], active) && ActiveOk(tabs + [n], Some(n.handle))
  {
    assert n in tabs + [n];
    if active.Some? {
      var e :| e in tabs && e.handle == active.value;
      assert e in tabs + [n];
    }
  }

  lemma RegisterScope(tabs: seq<Entry>, mode: Mode, n: Entry)
    requires ScopeOk(tabs, mode) && (n.origin.Full? ==> mode.FullBrowser?)
    requires n.origin.Created? ==> |CreatedEntries(tabs)| < MAX_TASK_CREATED_TABS
    ensures CreatedEntries(tabs + [n]) == CreatedEntries(tabs) + if n.origin.Created? then [n] else []
    ensures ScopeOk(tabs + [n], mode)
  {
    FilterAppend(tabs, [n], (e: Entry) => e.origin.Created?);
    assert [n][1..] == [];
    assert CreatedEntries([n]) == if n.origin.Created? then [n] else [];
  }

  lemma RegisterTables(g: Gate, t: Tab, origin: Origin, makeActive: bool)
    requires TablesOk(g) && t !in g.handleByTab
    requires origin.Full? ==> g.mode.FullBrowser?
    requires origin.Created? ==> |CreatedEntries(g.tabs)| < MAX_TASK_CREATED_TABS
    ensures TablesOk(Register(g, t, origin, makeActive))
    ensures CreatedEntries(Register(g, t, origin, makeActive).tabs)
            == CreatedEntries(g.tabs) + if origin.Created? then [Entry(g.nextHandle, t, origin)] else []
  {
    hide TabsOk, ActiveOk, ScopeOk, CreatedEntries;
    var n := Entry(g.nextHandle, t, origin);
    RegisterTabs(g.tabs, g.handleByTab, g.nextHandle, n);
    RegisterActive(g.tabs, g.active, n);
    RegisterScope(g.tabs, g.mode, n);
  }

  lemma SetModeTables(g: Gate, mode: Mode)
    requires TablesOk(g)
    ensures TablesOk(SetMode(g, mode)) && CreatedEntries(SetMode(g, mode).tabs) == CreatedEntries(g.tabs)
  {
    hide TabsOk;
    if mode.TaskTabs? {
      var n := g.(mode := FullBrowser);
      KeepTables(n, (e: Entry) => !e.origin.Full?);
      var k := Keep(g.(mode := mode), (e: Entry) => !e.origin.Full?);
      assert k.tabs == Keep(n, (e: Entry) => !e.origin.Full?).tabs;
      FirstIsAllowed(k.tabs, mode);
    }
  }

  lemma ClearTables(g: Gate, preserveCreated: bool)
    requires TablesOk(g)
    ensures TablesOk(ClearAuthorization(g, preserveCreated))
    ensures CreatedEntries(ClearAuthorization(g, preserveCreated).tabs) == if preserveCreated then CreatedEntries(g.tabs) else []
  {
    hide TabsOk;
    if preserveCreated {
      KeepTables(g, (e: Entry) => e.origin.Created?);
    } else {
      NoTabs(g.nextHandle);
    }
  }

  lemma NoTabs(nextHandle: Handle)
    ensures TabsOk([], map[], nextHandle)
  {
  }

  lemma RemoveTables(g: Gate, t: Tab)
    requires TablesOk(g)
    ensures TablesOk(RemoveTab(g, t))
    ensures CreatedEntries(RemoveTab(g, t).tabs) == Filter(CreatedEntries(g.tabs), (e: Entry) => e.tab != t)
  {
    hide TabsOk, ScopeOk, Filter, Keep;
    FoundTab(g, t);
    match EntryForTab(g, t) {
      case None => FilterAll(CreatedEntries(g.tabs), (e: Entry) => e.tab != t);
      case Some(x) =>
        OnlyEntry(g, x);
        KeepTables(g, (e: Entry) => e != x);
        var k := Keep(g, (e: Entry) => e != x);
        FirstIsAllowed(k.tabs, k.mode);
        KeepTabs(g, (e: Entry) => e != x);
        FilterSwap(g.tabs, (e: Entry) => e.origin.Created?, (e: Entry) => e != x, (e: Entry) => e.tab != t);
    }
  }

  lemma KeepTabs(g: Gate, p: Entry -> bool)
    ensures Keep(g, p).tabs == Filter(g.tabs, p) && Keep(g, p).nextHandle == g.nextHandle && Keep(g, p).mode == g.mode
  {
  }

  lemma OnlyEntry(g: Gate, x: Entry)
    requires TabsOk(g.tabs, g.handleByTab, g.nextHandle) && x in g.tabs
    ensures forall e <- g.tabs :: e.tab == x.tab <==> e == x
  {
    SameHandle(g.tabs);
  }

  lemma {:induction false} FilterAll(tabs: seq<Entry>, p: Entry -> bool)
    requires forall e <- tabs :: p(e)
    ensures Filter(tabs, p) == tabs
  {
    if tabs != [] {
      assert tabs[0] in tabs;
      FilterAll(tabs[1..], p);
    }
  }

  lemma {:induction false} FilterSwap(tabs: seq<Entry>, p: Entry -> bool, q: Entry -> bool, q': Entry -> bool)
    requires forall e <- tabs :: q(e) == q'(e)
    ensures Filter(Filter(tabs, q), p) == Filter(Filter(tabs, p), q')
  {
    if tabs != [] {
      assert tabs[0] in tabs;
      FilterSwap(tabs[1..], p, q, q');
      var a := if q(tabs[0]) then [tabs[0]] else [];
      var b := if p(tabs[0]) then [tabs[0]] else [];
      FilterAppend(a, Filter(tabs[1..], q), p);
      FilterAppend(b, Filter(tabs[1..], p), q');
      assert a == [] || a[1..] == [];
      assert b == [] || b[1..] == [];
    }
  }

  // ---------------------------------------------------------------- every step

  /** What the table operations leave alone. */
  lemma TablesFrame(g: Gate, mode: Mode, preserveCreated: bool, t: Tab, origin: Origin, makeActive: bool)
    ensures ConsentOk(g) ==> ConsentOk(SetMode(g, mode)) && ConsentOk(ClearAuthorization(g, preserveCreated))
                             && ConsentOk(Register(g, t, origin, makeActive)) && ConsentOk(RemoveTab(g, t))
  {
    hide PromptsOk, CallersOk, LatchOk, Filter, FirstAllowed;
  }

  lemma RequireKeeps(g: Gate, mode: Mode, now: int)
    requires Inv(g)
    ensures Inv(Require(g, mode, now))
    ensures CreatedEntries(Require(g, mode, now).tabs) == CreatedEntries(g.tabs)
  {
    hide TabsOk, ActiveOk, ScopeOk, SetMode, ClearAuthorization, PromptsOk, CallersOk, LatchOk, ShowPrompt, Join, CreatedEntries;
    SetModeTables(g, mode);
    TablesFrame(g, mode, true, 0, Full, false);
    var m := SetMode(g, mode);
    ClearTables(m, true);
    TablesFrame(m, mode, true, 0, Full, false);
    PromptKeeps(ClearAuthorization(m, true));
  }

  lemma PromptKeeps(g: Gate)
    requires Inv(g)
    ensures Inv(Join(ShowPrompt(g))) && Join(ShowPrompt(g)).tabs == g.tabs
  {
    hide TabsOk, ActiveOk, ScopeOk;
  }

  lemma ResumeKeeps(g: Gate, i: nat, now: int)
    requires Inv(g) && MayResume(g, i)
    ensures Inv(Resume(g, i, now))
    ensures CreatedEntries(Resume(g, i, now).tabs) == CreatedEntries(g.tabs)
  {
    hide TabsOk, ScopeOk;
    if Grants(g, i) {
      var t := g.prompts[g.callers[i].prompt].outcome.value.tab;
      FoundTab(g, t);
      if EntryForTab(g, t).None? {
        RegisterTables(g, t, Approved, true);
      }
    }
  }

  lemma RegisterKeeps(g: Gate, t: Tab, makeActive: bool)
    requires Inv(g)
    ensures Inv(RegisterCreated(g, t, makeActive)) && Inv(RegisterFull(g, t))
    ensures CreatedEntries(RegisterFull(g, t).tabs) == CreatedEntries(g.tabs)
    ensures CreatedEntries(RegisterCreated(g, t, makeActive).tabs) == CreatedEntries(g.tabs)
      + if t !in g.handleByTab && |CreatedEntries(g.tabs)| < MAX_TASK_CREATED_TABS then [Entry(g.nextHandle, t, Created)] else []
  {
    hide TabsOk, PromptsOk, CallersOk, LatchOk;
    FoundTab(g, t);
    if t !in g.handleByTab {
      if |CreatedEntries(g.tabs)| < MAX_TASK_CREATED_TABS { RegisterTables(g, t, Created, makeActive); }
      if g.mode.FullBrowser? { RegisterTables(g, t, Full, false); }
    }
  }

  lemma SelectKeeps(g: Gate, h: Handle, mode: Mode, now: int)
    requires Inv(g)
    ensures Inv(Select(g, h, mode, now))
    ensures CreatedEntries(Select(g, h, mode, now).tabs) == CreatedEntries(g.tabs)
  {
    hide TabsOk, ScopeOk, PromptsOk, CallersOk, LatchOk, SetMode;
    SetModeTables(g, mode);
    TablesFrame(g, mode, true, 0, Full, false);
    Found(SetMode(g, mode).tabs, h);
  }

  lemma EndKeeps(g: Gate, manual: bool)
    requires Inv(g)
    ensures Inv(EndTask(g)) && Inv(Stop(g)) && Inv(Revoke(g, manual))
    ensures CreatedEntries(EndTask(g).tabs) == [] && CreatedEntries(Stop(g).tabs) == []
    ensures CreatedEntries(Revoke(g, manual).tabs) == CreatedEntries(g.tabs)
  {
    hide TablesOk, ConsentOk, EndTask, Stop, Revoke, CreatedEntries;
    EndTables(g);
    EndConsent(g);
    RevokeKeeps(g, manual);
  }

  lemma EndTables(g: Gate)
    ensures TablesOk(EndTask(g)) && TablesOk(Stop(g))
    ensures CreatedEntries(EndTask(g).tabs) == [] && CreatedEntries(Stop(g).tabs) == []
  {
    hide TabsOk;
    NoTabs(g.nextHandle);
  }

  lemma EndConsent(g: Gate)
    requires ConsentOk(g)
    ensures ConsentOk(EndTask(g)) && ConsentOk(Stop(g))
  {
    hide CallersOk;
  }

  lemma RevokeKeeps(g: Gate, manual: bool)
    requires Inv(g)
    ensures Inv(Revoke(g, manual)) && CreatedEntries(Revoke(g, manual).tabs) == CreatedEntries(g.tabs)
  {
    hide TabsOk, ActiveOk, ScopeOk, PromptsOk, CallersOk, LatchOk, ClearAuthorization, CreatedEntries;
    ClearTables(g, true);
    TablesFrame(g, TaskTabs, true, 0, Full, false);
  }

  lemma StepKeeps(g: Gate, e: Event)
    requires Inv(g)
    ensures Inv(Step(g, e))
  {
    hide TabsOk, ActiveOk, ScopeOk, PromptsOk, CallersOk, LatchOk, Require, Settle, Resume, SetMode, RegisterCreated, RegisterFull, Select,
         Revoke, Stop, EndTask, RemoveTab;
    match e {
      case RequireTab(mode, now) => RequireKeeps(g, mode, now);
      case PromptSettles(i, outcome) => if i < |g.prompts| && g.prompts[i].outcome.None? { SettleKeeps(g, i, outcome); }
      case CallerResumes(i, now) => if MayResume(g, i) { ResumeKeeps(g, i, now); }
      case ModeApplied(mode) =>
        SetModeTables(g, mode);
        TablesFrame(g, mode, true, 0, Full, false);
      case TabCreated(t, makeActive) => RegisterKeeps(g, t, makeActive);
      case FullTabFound(t) => RegisterKeeps(g, t, false);
      case HandleSelected(h, mode, now) => SelectKeeps(g, h, mode, now);
      case ConsentRevoked(manual) => EndKeeps(g, manual);
      case Stopped => EndKeeps(g, false);
      case TaskEnded => EndKeeps(g, false);
      case TabRemoved(t) =>
        RemoveTables(g, t);
        TablesFrame(g, TaskTabs, true, t, Full, false);
    }
  }

  lemma SettleKeeps(g: Gate, i: nat, outcome: Outcome)
    requires Inv(g) && i < |g.prompts| && g.prompts[i].outcome.None?
    ensures Inv(Settle(g, i, outcome))
  {
    hide TabsOk, ActiveOk, ScopeOk;
  }

  lemma {:induction false} ExecKeeps(g: Gate, es: seq<Event>)
    requires Inv(g)
    ensures Inv(Exec(g, es))
    decreases |es|
  {
    hide Inv, Step;
    if es != [] {
      StepKeeps(g, es[0]);
      ExecKeeps(Step(g, es[0]), es[1..]);
    }
  }

  lemma ReachableOk(es: seq<Event>)
    ensures Inv(Exec(EMPTY, es))
  {
    hide Step;
    ExecKeeps(EMPTY, es);
  }

  // ---------------------------------------------------------------- the Stop latch

  /** The caller's prompt was shown in the current task generation, without pre-approval, and allowed. */
  predicate FreshManualAllow(g: Gate, e: Event) {
    && e.CallerResumes? && MayResume(g, e.caller)
    && var p := g.prompts[g.callers[e.caller].prompt];
       p.outcome.value.Allowed? && p.generation == g.generation && !p.allowPreApproval
  }

  /** Only a fresh manual Allow releases Stop, and it always does. */
  lemma StopIsReleasedOnlyByFreshAllow(es: seq<Event>, e: Event)
    requires Exec(EMPTY, es).stopped
    ensures !Step(Exec(EMPTY, es), e).stopped <==> FreshManualAllow(Exec(EMPTY, es), e)
  {
    hide Exec, TabsOk, ActiveOk, ScopeOk;
    ReachableOk(es);
    StopStays(Exec(EMPTY, es), e);
  }

  /** Mode changes and clearing touch the tab tables only. */
  ghost predicate SameLatch(g: Gate, g': Gate) {
    && g'.stopped == g.stopped && g'.manualApprovalRequired == g.manualApprovalRequired && g'.generation == g.generation
    && g'.prompts == g.prompts && g'.callers == g.callers
  }

  lemma LatchFrame(g: Gate, mode: Mode)
    ensures SameLatch(g, SetMode(g, mode)) && SameLatch(SetMode(g, mode), ClearAuthorization(SetMode(g, mode), true))
  {
    hide FirstAllowed, CurrentEntry, Filter;
  }

  lemma StopStays(g: Gate, e: Event)
    requires ConsentOk(g) && g.stopped
    ensures !Step(g, e).stopped <==> FreshManualAllow(g, e)
  {
    hide FirstAllowed, EntryForTab, EntryForHandle, Filter, CurrentEntry, CreatedEntries;
    if e.RequireTab? || e.ModeApplied? || e.HandleSelected? {
      hide SetMode, ClearAuthorization;
      LatchFrame(g, e.mode);
    }
  }

  /** Only `stop` and `endTask` start a generation, and each does. */
  lemma GenerationCountsEnds(g: Gate, e: Event)
    ensures Step(g, e).generation == g.generation + if e.Stopped? || e.TaskEnded? then 1 else 0
  {
    hide FirstAllowed, EntryForTab, EntryForHandle, Filter, CurrentEntry, CreatedEntries;
    if e.RequireTab? || e.ModeApplied? || e.HandleSelected? {
      hide SetMode, ClearAuthorization;
      LatchFrame(g, e.mode);
    }
  }

  /**
   * A caller that joined a prompt shown before the last `stop` or `endTask` always fails: resuming
   * it grants nothing and changes nothing else, whatever the answer was.
   */
  lemma StaleCallerFails(es: seq<Event>, i: nat, now: int)
    requires
      var g := Exec(EMPTY, es);
      MayResume(g, i) && g.prompts[g.callers[i].prompt].generation < g.generation
    ensures
      var g := Exec(EMPTY, es);
      Step(g, CallerResumes(i, now)) == g.(callers := g.callers[i := g.callers[i].(answer := Failed)])
  {
    hide Exec, TabsOk, ActiveOk, ScopeOk;
    ReachableOk(es);
  }

  /**
   * While stopped, `requireTab` never answers from old consent: every caller waits for a prompt, and
   * one shown since the last end was shown without pre-approval.
   */
  lemma StoppedAlwaysAsks(es: seq<Event>, mode: Mode, now: int)
    requires Exec(EMPTY, es).stopped
    ensures
      var g := Exec(EMPTY, es);
      var r := Step(g, RequireTab(mode, now));
      && |r.callers| == |g.callers| + 1 && r.callers[..|g.callers|] == g.callers && r.callers[|g.callers|].answer.Waiting?
      && r.callers[|g.callers|].prompt < |r.prompts|
      && var p := r.prompts[r.callers[|g.callers|].prompt];
         p.outcome.None? && p.generation == r.callers[|g.callers|].generation && (p.generation == r.generation ==> !p.allowPreApproval)
  {
    hide Exec, TabsOk, ActiveOk, ScopeOk, SetMode, ClearAuthorization, CurrentEntry;
    ReachableOk(es);
    ReachableOk(es + [RequireTab(mode, now)]);
    ExecSnoc(EMPTY, es, RequireTab(mode, now));
    LatchFrame(Exec(EMPTY, es), mode);
    var g := Exec(EMPTY, es);
    assert SetMode(g, mode).stopped;
  }

  lemma {:induction false} ExecSnoc(g: Gate, es: seq<Event>, e: Event)
    ensures Exec(g, es + [e]) == Step(Exec(g, es), e)
    decreases |es|
  {
    hide Step;
    if es == [] {
      assert es + [e] == [e] && [e][1..] == [];
    } else {
      assert (es + [e])[1..] == es[1..] + [e];
      ExecSnoc(Step(g, es[0]), es[1..], e);
    }
  }

  /** At most one prompt is unanswered at any time, however many callers wait for it. */
  lemma OnePromptInFlight(es: seq<Event>, i: nat, j: nat)
    requires var g := Exec(EMPTY, es); i < |g.prompts| && j < |g.prompts| && g.prompts[i].outcome.None? && g.prompts[j].outcome.None?
    ensures i == j && Exec(EMPTY, es).promptInFlight == Some(i)
  {
    hide Exec, TabsOk, ActiveOk, ScopeOk;
    ReachableOk(es);
  }

  /**
   * `revokeConsent({ requireManualApproval })` is weaker than Stop: it starts no generation, so a
   * caller of a prompt that was shown with pre-approval still lifts the requirement.
   */
  lemma ManualRequirementIsNotFenced(tab: Tab)
    ensures
      var asked := Step(EMPTY, RequireTab(TaskTabs, 0));
      var shown := Step(Step(asked, ConsentRevoked(true)), PromptSettles(0, Allowed(tab)));
      var resumed := Step(shown, CallerResumes(0, 0));
      && shown.manualApprovalRequired && !resumed.manualApprovalRequired && resumed.active.Some?
      && shown.prompts == [Prompt(true, 0, Some(Allowed(tab)))]
  {
    var a := Step(EMPTY, RequireTab(TaskTabs, 0));
    assert a.prompts == [Prompt(true, 0, None)] && a.callers == [Caller(0, 0, Waiting)];
  }

  /** The requirement is lifted by exactly the callers that are granted a tab. */
  lemma ManualRequirementLifted(g: Gate, e: Event)
    requires g.manualApprovalRequired
    ensures !Step(g, e).manualApprovalRequired <==> e.CallerResumes? && MayResume(g, e.caller) && Grants(g, e.caller)
  {
    hide FirstAllowed, EntryForTab, EntryForHandle, Filter, CurrentEntry, CreatedEntries;
    if e.RequireTab? || e.ModeApplied? || e.HandleSelected? {
      hide SetMode, ClearAuthorization;
      LatchFrame(g, e.mode);
    }
  }

  /** A prompt of this task, shown with pre-approval, can still grant: it is unanswered, or allowed with a caller waiting. */
  ghost predicate Exposed(g: Gate) {
    exists i | 0 <= i < |g.prompts| :: CanPreApprove(g, i)
  }

  ghost predicate CanPreApprove(g: Gate, i: nat)
    requires i < |g.prompts|
  {
    var p := g.prompts[i];
    && p.generation == g.generation && p.allowPreApproval
    && (p.outcome.None? || (p.outcome.value.Allowed? && exists k | 0 <= k < |g.callers| :: WaitsFor(g.callers[k], i)))
  }

  predicate WaitsFor(c: Caller, i: nat) {
    c.prompt == i && c.answer.Waiting?
  }

  /** The requirement holds before and after every event of the run. */
  ghost predicate StaysRequired(g: Gate, es: seq<Event>)
    decreases |es|
  {
    g.manualApprovalRequired && (es == [] || StaysRequired(Step(g, es[0]), es[1..]))
  }

  /** The step grants a caller of a prompt that was shown without pre-approval. */
  predicate GrantsManually(g: Gate, e: Event) {
    e.CallerResumes? && MayResume(g, e.caller) && Grants(g, e.caller) && !g.prompts[g.callers[e.caller].prompt].allowPreApproval
  }

  /** Whatever follows, the first step that lifts the requirement is a manual approval. */
  ghost predicate OnlyManuallyLifted(g: Gate) {
    forall es: seq<Event>, e: Event | StaysRequired(g, es) && !Step(Exec(g, es), e).manualApprovalRequired :: GrantsManually(Exec(g, es), e)
  }

  /** What a step may do to prompts and callers while the requirement holds: nothing that exposes. */
  ghost predicate Unexposing(g: Gate, q: Gate) {
    && q.generation >= g.generation && |g.prompts| <= |q.prompts| && |g.callers| <= |q.callers|
    && (forall i | 0 <= i < |g.prompts| :: q.prompts[i] == g.prompts[i] || (g.prompts[i].outcome.None? && q.prompts[i] == g.prompts[i].(outcome := q.prompts[i].outcome)))
    && (forall i | |g.prompts| <= i < |q.prompts| :: !q.prompts[i].allowPreApproval)
    && (forall k | 0 <= k < |g.callers| :: q.callers[k].prompt == g.callers[k].prompt && (q.callers[k].answer.Waiting? ==> g.callers[k].answer.Waiting?))
    && (forall k | |g.callers| <= k < |q.callers| :: q.callers[k].prompt < |q.prompts| && q.prompts[q.callers[k].prompt].outcome.None?)
  }

  lemma RequireUnexposing(g: Gate, mode: Mode, now: int)
    requires ConsentOk(g) && g.manualApprovalRequired
    ensures Unexposing(g, Step(g, RequireTab(mode, now)))
  {
    hide FirstAllowed, Filter, CurrentEntry, SetMode, ClearAuthorization;
    LatchFrame(g, mode);
    JoinFrame(g, mode);
  }

  lemma StepUnexposing(g: Gate, e: Event)
    requires ConsentOk(g) && g.manualApprovalRequired && Step(g, e).manualApprovalRequired
    ensures Unexposing(g, Step(g, e))
  {
    hide Step, ConsentOk, Unexposing;
    match e {
      case RequireTab(mode, now) => RequireUnexposing(g, mode, now);
      case PromptSettles(_, _) => AnswerUnexposing(g, e);
      case CallerResumes(_, _) => AnswerUnexposing(g, e);
      case _ => QuietStep(g, e); QuietUnexposing(g, Step(g, e));
    }
  }

  /** A prompt's answer, and a resumption that leaves the requirement in place. */
  lemma AnswerUnexposing(g: Gate, e: Event)
    requires (e.PromptSettles? || e.CallerResumes?) && g.manualApprovalRequired && Step(g, e).manualApprovalRequired
    ensures Unexposing(g, Step(g, e))
  {
    hide EntryForTab;
  }

  /** The steps that neither ask nor answer. */
  lemma QuietStep(g: Gate, e: Event)
    requires !e.RequireTab? && !e.PromptSettles? && !e.CallerResumes?
    ensures SameAsked(g, Step(g, e)) && Step(g, e).generation >= g.generation
  {
    hide SetMode, ClearAuthorization, Keep, FirstAllowed, EntryForTab, EntryForHandle, CreatedEntries, SameAsked;
    match e {
      case ModeApplied(mode) => ModeAsks(g, mode);
      case HandleSelected(_, mode, _) => ModeAsks(g, mode); SelectAsks(g, e);
      case TabRemoved(t) => RemovalAsks(g, t);
      case _ => OtherwiseAsks(g, e);
    }
  }

  ghost predicate SameAsked(g: Gate, q: Gate) {
    q.prompts == g.prompts && q.callers == g.callers
  }

  lemma ModeAsks(g: Gate, mode: Mode)
    ensures SameAsked(g, SetMode(g, mode)) && SetMode(g, mode).generation == g.generation
  {
    hide FirstAllowed, CurrentEntry, Filter;
  }

  lemma SelectAsks(g: Gate, e: Event)
    requires e.HandleSelected? && SameAsked(g, SetMode(g, e.mode)) && SetMode(g, e.mode).generation == g.generation
    ensures SameAsked(g, Step(g, e)) && Step(g, e).generation == g.generation
  {
    hide SetMode, EntryForHandle;
  }

  lemma RemovalAsks(g: Gate, t: Tab)
    ensures SameAsked(g, RemoveTab(g, t)) && RemoveTab(g, t).generation == g.generation
  {
    hide FirstAllowed, EntryForTab, Filter;
  }

  lemma OtherwiseAsks(g: Gate, e: Event)
    requires e.TabCreated? || e.FullTabFound? || e.ConsentRevoked? || e.Stopped? || e.TaskEnded?
    ensures SameAsked(g, Step(g, e)) && Step(g, e).generation >= g.generation
  {
    hide EntryForTab, CreatedEntries, Filter;
  }

  lemma QuietUnexposing(g: Gate, q: Gate)
    requires SameAsked(g, q) && q.generation >= g.generation
    ensures Unexposing(g, q)
  {
  }

  /** While the requirement holds no step exposes the gate: prompts shown now allow no pre-approval. */
  lemma NotExposedStep(g: Gate, e: Event)
    requires ConsentOk(g) && g.manualApprovalRequired && !Exposed(g) && Step(g, e).manualApprovalRequired
    ensures !Exposed(Step(g, e))
  {
    StepUnexposing(g, e);
    hide Step;
    StaysHidden(g, Step(g, e));
  }

  lemma StaysHidden(g: Gate, q: Gate)
    requires Unexposing(g, q) && !Exposed(g) && forall i | 0 <= i < |g.prompts| :: g.prompts[i].generation <= g.generation
    ensures !Exposed(q)
  {
    forall i | 0 <= i < |q.prompts| ensures !CanPreApprove(q, i) {
      if i < |g.prompts| {
        assert !CanPreApprove(g, i);
        forall k | 0 <= k < |q.callers| && WaitsFor(q.callers[k], i) ensures q.prompts[i].outcome.None? || WaitsFor(g.callers[k], i) {
        }
      }
    }
  }

  /** A grant of a gate that is not exposed is a manual one. */
  lemma GrantIsManual(g: Gate, e: Event)
    requires ConsentOk(g) && g.manualApprovalRequired && !Exposed(g) && !Step(g, e).manualApprovalRequired
    ensures GrantsManually(g, e)
  {
    hide Step;
    ManualRequirementLifted(g, e);
    if g.prompts[g.callers[e.caller].prompt].allowPreApproval { GrantExposes(g, e.caller); }
  }

  lemma GrantExposes(g: Gate, k: nat)
    requires ConsentOk(g) && MayResume(g, k) && Grants(g, k) && g.prompts[g.callers[k].prompt].allowPreApproval
    ensures Exposed(g)
  {
    var i := g.callers[k].prompt;
    assert WaitsFor(g.callers[k], i);
    assert CanPreApprove(g, i);
  }

  lemma ConsentPart(g: Gate)
    requires Inv(g)
    ensures ConsentOk(g)
  {
  }

  lemma {:induction false} StaysUnexposed(g: Gate, es: seq<Event>, e: Event)
    requires Inv(g) && !Exposed(g) && StaysRequired(g, es) && !Step(Exec(g, es), e).manualApprovalRequired
    ensures GrantsManually(Exec(g, es), e)
    decreases |es|
  {
    hide Step, Inv, Exposed, ConsentOk, GrantsManually;
    ConsentPart(g);
    if es == [] {
      GrantIsManual(g, e);
    } else {
      NotExposedStep(g, es[0]);
      StepKeeps(g, es[0]);
      StaysUnexposed(Step(g, es[0]), es[1..], e);
    }
  }

  /** Late enough for any consent to have expired. */
  const LATER := CONSENT_IDLE_RESET_MS + 1

  /** A caller joins the unanswered prompt. */
  lemma JoinsPrompt(g: Gate, i: nat)
    requires ConsentOk(g) && g.manualApprovalRequired && g.lastCommandAt == 0 && i < |g.prompts| && g.prompts[i].outcome.None?
    ensures
      var q := Step(g, RequireTab(TaskTabs, LATER));
      && q.prompts == g.prompts && q.callers == g.callers + [Caller(i, g.prompts[i].generation, Waiting)]
      && q.generation == g.generation && q.manualApprovalRequired
  {
    hide FirstAllowed, Filter, CurrentEntry, SetMode, ClearAuthorization;
    LatchFrame(g, TaskTabs);
    JoinFrame(g, TaskTabs);
  }

  lemma JoinFrame(g: Gate, mode: Mode)
    ensures
      var m := SetMode(g, mode);
      var c := ClearAuthorization(m, true);
      m.lastCommandAt == g.lastCommandAt && c.promptInFlight == g.promptInFlight && c.promptGeneration == g.promptGeneration
  {
    hide FirstAllowed, CurrentEntry, Filter;
  }

  /** The prompt is allowed, the caller is granted, and the requirement is gone without a manual approval. */
  lemma PreApproves(g: Gate, i: nat, k: nat)
    requires g.manualApprovalRequired && i < |g.prompts| && k < |g.callers| && WaitsFor(g.callers[k], i)
    requires g.prompts[i].allowPreApproval && g.callers[k].generation == g.generation
    requires g.prompts[i].outcome.Some? && g.prompts[i].outcome.value.Allowed?
    ensures !Step(g, CallerResumes(k, 0)).manualApprovalRequired && !GrantsManually(g, CallerResumes(k, 0))
  {
    hide Step;
    ManualRequirementLifted(g, CallerResumes(k, 0));
  }

  lemma SettlesAllowed(g: Gate, i: nat)
    requires i < |g.prompts| && g.prompts[i].outcome.None?
    ensures
      var q := Step(g, PromptSettles(i, Allowed(0)));
      && q.prompts == g.prompts[i := g.prompts[i].(outcome := Some(Allowed(0)))] && q.callers == g.callers
      && q.generation == g.generation && q.manualApprovalRequired == g.manualApprovalRequired
  {
  }

  lemma ExposedIsLifted(g: Gate)
    requires ConsentOk(g) && Exposed(g) && g.manualApprovalRequired && g.lastCommandAt == 0
    ensures !OnlyManuallyLifted(g)
  {
    hide Step;
    var i: nat :| i < |g.prompts| && CanPreApprove(g, i);
    if g.prompts[i].outcome.None? {
      var join, allow := RequireTab(TaskTabs, LATER), PromptSettles(i, Allowed(0));
      JoinsPrompt(g, i);
      var joined := Step(g, join);
      SettlesAllowed(joined, i);
      var allowed := Step(joined, allow);
      var k := |g.callers|;
      PreApproves(allowed, i, k);
      var es := [join, allow];
      assert es[1..] == [allow] && [allow][1..] == [];
      assert Exec(allowed, []) == allowed && Exec(joined, [allow]) == allowed && Exec(g, es) == allowed;
      assert StaysRequired(allowed, []) && StaysRequired(joined, [allow]) && StaysRequired(g, es);
      assert !Step(Exec(g, es), CallerResumes(k, 0)).manualApprovalRequired;
    } else {
      var k: nat :| k < |g.callers| && WaitsFor(g.callers[k], i);
      PreApproves(g, i, k);
      assert Exec(g, []) == g && StaysRequired(g, []);
      assert !Step(Exec(g, []), CallerResumes(k, 0)).manualApprovalRequired;
    }
  }

  lemma RevokedState(g: Gate)
    ensures
      var r := Step(g, ConsentRevoked(true));
      && r.manualApprovalRequired && r.lastCommandAt == 0
      && r.prompts == g.prompts && r.callers == g.callers && r.generation == g.generation
  {
    hide Filter;
  }

  /**
   * When `revokeConsent({ requireManualApproval: true })` does what it says: the requirement is
   * lifted only by a prompt shown without pre-approval if and only if, at the call, no prompt of the
   * current task that was shown with pre-approval can still grant.
   */
  lemma ManualRequirementHoldsExactlyWhen(es: seq<Event>)
    ensures
      var g := Exec(EMPTY, es);
      OnlyManuallyLifted(Step(g, ConsentRevoked(true))) <==> !Exposed(g)
  {
    hide Exec, Step, Inv, OnlyManuallyLifted;
    var g := Exec(EMPTY, es);
    var r := Step(g, ConsentRevoked(true));
    ReachableOk(es);
    StepKeeps(g, ConsentRevoked(true));
    ConsentPart(r);
    RevokedState(g);
    SameExposure(g, r);
    if Exposed(g) {
      ExposedIsLifted(r);
    } else {
      UnexposedIsFenced(r);
    }
  }

  lemma SameExposure(g: Gate, r: Gate)
    requires r.prompts == g.prompts && r.callers == g.callers && r.generation == g.generation
    ensures Exposed(r) <==> Exposed(g)
  {
    forall i | 0 <= i < |g.prompts| ensures CanPreApprove(r, i) == CanPreApprove(g, i) {
    }
  }

  lemma UnexposedIsFenced(r: Gate)
    requires Inv(r) && !Exposed(r)
    ensures OnlyManuallyLifted(r)
  {
    hide Exec, Step, Inv, Exposed, StaysRequired, GrantsManually;
    forall es: seq<Event>, e: Event | StaysRequired(r, es) && !Step(Exec(r, es), e).manualApprovalRequired ensures GrantsManually(Exec(r, es), e) {
      StaysUnexposed(r, es, e);
    }
  }

  // ---------------------------------------------------------------- the tab tables

  /** The tables agree in every reachable state. */
  lemma TabTablesAgree(es: seq<Event>)
    ensures
      var g := Exec(EMPTY, es);
      && (forall t <- g.handleByTab :: exists e :: e in g.tabs && e.tab == t && e.handle == g.handleByTab[t])
      && (forall e <- g.tabs :: e.tab in g.handleByTab && g.handleByTab[e.tab] == e.handle)
      && (forall a, b | a in g.tabs && b in g.tabs && (a.handle == b.handle || a.tab == b.tab) :: a == b)
      && (g.active.Some? ==> EntryForHandle(g.tabs, g.active.value).Some?)
      && (g.mode.TaskTabs? ==> forall e <- g.tabs :: !e.origin.Full?)
      && |CreatedEntries(g.tabs)| <= MAX_TASK_CREATED_TABS
  {
    hide Exec;
    ReachableOk(es);
    var g := Exec(EMPTY, es);
    SameHandle(g.tabs);
    if g.active.Some? { Found(g.tabs, g.active.value); }
    forall t | t in g.handleByTab ensures exists e :: e in g.tabs && e.tab == t && e.handle == g.handleByTab[t] {
      var e :| e in g.tabs && e.tab == t;
    }
  }

  /** What one step may do to handles that were already given out. */
  ghost predicate HandlesKept(g: Gate, g': Gate) {
    && g.nextHandle <= g'.nextHandle
    && forall e <- g'.tabs :: e.handle < g.nextHandle ==> e in g.tabs
  }

  lemma HandlesThen(a: Gate, b: Gate, c: Gate)
    requires HandlesKept(a, b) && HandlesKept(b, c)
    ensures HandlesKept(a, c)
  {
  }

  lemma SetModeHandles(g: Gate, mode: Mode, preserveCreated: bool)
    ensures HandlesKept(g, SetMode(g, mode)) && HandlesKept(g, ClearAuthorization(g, preserveCreated))
  {
    hide FirstAllowed, CurrentEntry;
  }

  lemma OtherHandles(g: Gate, e: Event)
    requires !e.RequireTab? && !e.HandleSelected?
    ensures HandlesKept(g, Step(g, e))
  {
    hide FirstAllowed, EntryForTab, EntryForHandle, CurrentEntry, CreatedEntries;
  }

  lemma StepKeepsHandles(g: Gate, e: Event)
    ensures HandlesKept(g, Step(g, e))
  {
    hide SetMode, ClearAuthorization, FirstAllowed, EntryForTab, EntryForHandle, CurrentEntry, CreatedEntries, HasConsent;
    match e {
      case RequireTab(mode, now) =>
        SetModeHandles(g, mode, true);
        var m := SetMode(g, mode);
        SetModeHandles(m, mode, true);
        HandlesThen(g, m, ClearAuthorization(m, true));
      case HandleSelected(h, mode, now) => SetModeHandles(g, mode, true);
      case _ => OtherHandles(g, e);
    }
  }

  /** A handle that was given out means the same tab for ever, or nothing: it is never used again. */
  lemma {:induction false} HandlesAreNeverReused(g: Gate, es: seq<Event>)
    ensures HandlesKept(g, Exec(g, es))
    decreases |es|
  {
    hide Step;
    if es != [] {
      StepKeepsHandles(g, es[0]);
      HandlesAreNeverReused(Step(g, es[0]), es[1..]);
    }
  }

  /** The created tabs that are open: what the registrations, removals and ends of the run leave. */
  ghost function OpenCreated(g: Gate, es: seq<Event>, open: seq<Tab>): seq<Tab>
    decreases |es|
  {
    if es == [] then open
    else OpenCreated(Step(g, es[0]), es[1..], After(g, es[0], open))
  }

  /** A tab is added when it is registered as created, which it is if it has no handle yet and the limit allows; it goes when it is removed, or at the end. */
  ghost function After(g: Gate, e: Event, open: seq<Tab>): seq<Tab> {
    match e
    case TabCreated(t, _) => if t !in g.handleByTab && |open| < MAX_TASK_CREATED_TABS then open + [t] else open
    case TabRemoved(t) => WithoutTab(open, t)
    case Stopped => []
    case TaskEnded => []
    case _ => open
  }

  ghost function WithoutTab(ts: seq<Tab>, t: Tab): seq<Tab> {
    if ts == [] then [] else (if ts[0] == t then [] else [ts[0]]) + WithoutTab(ts[1..], t)
  }

  lemma {:induction false} WithoutTabOf(es: seq<Entry>, t: Tab)
    ensures TabsOf(Filter(es, (e: Entry) => e.tab != t)) == WithoutTab(TabsOf(es), t)
  {
    if es != [] {
      WithoutTabOf(es[1..], t);
      assert TabsOf(es)[1..] == TabsOf(es[1..]);
    }
  }

  lemma CreatedStep(g: Gate, e: Event)
    requires Inv(g)
    ensures TabsOf(CreatedEntries(Step(g, e).tabs)) == After(g, e, TabsOf(CreatedEntries(g.tabs)))
  {
    hide Inv, CreatedEntries, Require, Settle, Resume, SetMode, RegisterCreated, RegisterFull, Select, Revoke, Stop, EndTask, RemoveTab;
    InvTables(g);
    match e {
      case RequireTab(mode, now) => RequireKeeps(g, mode, now);
      case PromptSettles(i, outcome) => if i < |g.prompts| { SettleTabs(g, i, outcome); }
      case CallerResumes(i, now) => if MayResume(g, i) { ResumeKeeps(g, i, now); }
      case ModeApplied(mode) => SetModeTables(g, mode);
      case TabCreated(t, makeActive) => RegisterKeeps(g, t, makeActive);
      case FullTabFound(t) => RegisterKeeps(g, t, false);
      case HandleSelected(h, mode, now) => SelectKeeps(g, h, mode, now);
      case ConsentRevoked(manual) => EndKeeps(g, manual);
      case Stopped => EndKeeps(g, false);
      case TaskEnded => EndKeeps(g, false);
      case TabRemoved(t) =>
        RemoveTables(g, t);
        WithoutTabOf(CreatedEntries(g.tabs), t);
    }
  }

  lemma InvTables(g: Gate)
    requires Inv(g)
    ensures TablesOk(g)
  {
  }

  lemma SettleTabs(g: Gate, i: nat, outcome: Outcome)
    requires i < |g.prompts|
    ensures Settle(g, i, outcome).tabs == g.tabs
  {
  }

  /**
   * What `stop` and `endTask` return, `createdTabIds`, is exactly the tabs registered as created
   * since the last end and not removed since: consent expiry, revocation and mode changes lose none.
   */
  lemma {:induction false} EndReturnsOpenCreatedTabs(g: Gate, es: seq<Event>)
    requires Inv(g)
    ensures TabsOf(CreatedEntries(Exec(g, es).tabs)) == OpenCreated(g, es, TabsOf(CreatedEntries(g.tabs)))
    decreases |es|
  {
    hide Step, Inv, After;
    if es != [] {
      StepKeeps(g, es[0]);
      CreatedStep(g, es[0]);
      EndReturnsOpenCreatedTabs(Step(g, es[0]), es[1..]);
    }
  }
}
