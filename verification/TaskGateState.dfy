/**
 * Task consent in the browser extension (apps/browser-extension/src/task-gate.ts) as a state and
 * its atomic steps.  A `requireTab` call that awaits the prompt is a `Caller`; handles are the
 * numbers behind `tab-<n>`, and `tabs` is in insertion order.
 */
module TaskGateState {
  import opened Options

  type Tab = nat
  type Handle = nat

  const CONSENT_IDLE_RESET_MS := 600_000
  const MAX_TASK_CREATED_TABS := 8

  datatype Mode = TaskTabs | FullBrowser
  datatype Origin = Approved | Created | Full
  datatype Entry = Entry(handle: Handle, tab: Tab, origin: Origin)

  datatype Outcome = Allowed(tab: Tab) | Refused
  /** A prompt that was shown, with the task generation it was shown in, and its answer. */
  datatype Prompt = Prompt(allowPreApproval: bool, generation: nat, outcome: Option<Outcome>)
  datatype Answer = Waiting | Failed | Granted(tab: Tab)
  /** A suspended `requireTab`: the prompt it joined and the generation it captured. */
  datatype Caller = Caller(prompt: nat, generation: nat, answer: Answer)

  datatype Gate = Gate(
    tabs: seq<Entry>,
    handleByTab: map<Tab, Handle>,
    active: Option<Handle>,
    nextHandle: Handle,
    mode: Mode,
    stopped: bool,
    manualApprovalRequired: bool,
    generation: nat,
    lastCommandAt: int,
    promptInFlight: Option<nat>,
    promptGeneration: nat,
    prompts: seq<Prompt>,
    callers: seq<Caller>)

  const EMPTY := Gate([], map[], None, 1, TaskTabs, false, false, 0, 0, None, 0, [], [])

  // ---------------------------------------------------------------- the tab tables

  /** The entries that satisfy `p`, in order. */
  function Filter(tabs: seq<Entry>, p: Entry -> bool): (r: seq<Entry>)
    ensures forall e :: e in r <==> e in tabs && p(e)
    ensures |r| <= |tabs|
  {
    if tabs == [] then [] else (if p(tabs[0]) then [tabs[0]] else []) + Filter(tabs[1..], p)
  }

  function TabsOf(es: seq<Entry>): (r: seq<Tab>)
    ensures |r| == |es|
    ensures forall i | 0 <= i < |es| :: r[i] == es[i].tab
  {
    seq(|es|, i requires 0 <= i < |es| => es[i].tab)
  }

  function TabSet(es: seq<Entry>): set<Tab> {
    set e | e in es :: e.tab
  }

  /** `createdTabIds`. */
  function CreatedEntries(tabs: seq<Entry>): seq<Entry> {
    Filter(tabs, (e: Entry) => e.origin.Created?)
  }

  function EntryForHandle(tabs: seq<Entry>, h: Handle): Option<Entry> {
    if tabs == [] then None else if tabs[0].handle == h then Some(tabs[0]) else EntryForHandle(tabs[1..], h)
  }

  /** `entryForTab`. */
  function EntryForTab(g: Gate, t: Tab): Option<Entry> {
    if t in g.handleByTab then EntryForHandle(g.tabs, g.handleByTab[t]) else None
  }

  /** `currentEntry`. */
  function CurrentEntry(g: Gate): Option<Entry> {
    if g.active.Some? then EntryForHandle(g.tabs, g.active.value) else None
  }

  /** `firstAllowedHandle`. */
  function FirstAllowed(tabs: seq<Entry>, mode: Mode): Option<Handle> {
    if tabs == [] then None
    else if mode.FullBrowser? || !tabs[0].origin.Full? then Some(tabs[0].handle)
    else FirstAllowed(tabs[1..], mode)
  }

  /** `removeEntry` of every entry that does not satisfy `p`. */
  function Keep(g: Gate, p: Entry -> bool): Gate {
    var removed := Filter(g.tabs, (e: Entry) => !p(e));
    g.(tabs := Filter(g.tabs, p),
       handleByTab := g.handleByTab - TabSet(removed),
       active := if exists e :: e in removed && g.active == Some(e.handle) then None else g.active)
  }

  function Register(g: Gate, t: Tab, origin: Origin, makeActive: bool): Gate {
    g.(tabs := g.tabs + [Entry(g.nextHandle, t, origin)],
       handleByTab := g.handleByTab[t := g.nextHandle],
       active := if makeActive then Some(g.nextHandle) else g.active,
       nextHandle := g.nextHandle + 1)
  }

  /** `setMode`. */
  function SetMode(g: Gate, mode: Mode): Gate {
    if mode.FullBrowser? then g.(mode := mode)
    else
      var k := Keep(g.(mode := mode), (e: Entry) => !e.origin.Full?);
      if CurrentEntry(k).None? then k.(active := FirstAllowed(k.tabs, mode)) else k
  }

  /** `clearAuthorization`. */
  function ClearAuthorization(g: Gate, preserveCreated: bool): Gate {
    if preserveCreated then Keep(g, (e: Entry) => e.origin.Created?).(active := None)
    else g.(tabs := [], handleByTab := map[], active := None)
  }

  // ---------------------------------------------------------------- operations

  /** The consent that `requireTab` may use without asking. */
  predicate HasConsent(g: Gate, now: int) {
    !g.stopped && CurrentEntry(g).Some? && now - g.lastCommandAt <= CONSENT_IDLE_RESET_MS
  }

  /** `requireTab` up to its `await`: use the consent there is, or join the prompt in flight, or show one. */
  function Require(g: Gate, mode: Mode, now: int): Gate {
    var m := SetMode(g, mode);
    if HasConsent(m, now) then m.(lastCommandAt := now) else Join(ShowPrompt(ClearAuthorization(m, true)))
  }

  /** Show a prompt unless one is in flight. */
  function ShowPrompt(g: Gate): Gate {
    if g.promptInFlight.Some? then g
    else
      g.(promptGeneration := g.generation, promptInFlight := Some(|g.prompts|),
         prompts := g.prompts + [Prompt(!g.stopped && !g.manualApprovalRequired, g.generation, None)])
  }

  /** Wait for the prompt in flight. */
  function Join(g: Gate): Gate {
    if g.promptInFlight.None? then g
    else g.(callers := g.callers + [Caller(g.promptInFlight.value, g.promptGeneration, Waiting)])
  }

  /** The prompt's promise settles and its `finally` runs. */
  function Settle(g: Gate, i: nat, outcome: Outcome): Gate
    requires i < |g.prompts|
  {
    g.(prompts := g.prompts[i := g.prompts[i].(outcome := Some(outcome))], promptInFlight := None)
  }

  predicate MayResume(g: Gate, i: nat) {
    && i < |g.callers| && g.callers[i].answer.Waiting?
    && g.callers[i].prompt < |g.prompts| && g.prompts[g.callers[i].prompt].outcome.Some?
  }

  /** The caller is granted the tab its prompt was allowed for. */
  predicate Grants(g: Gate, i: nat)
    requires MayResume(g, i)
  {
    g.prompts[g.callers[i].prompt].outcome.value.Allowed? && g.callers[i].generation == g.generation
  }

  /** `requireTab` after its `await`. */
  function Resume(g: Gate, i: nat, now: int): Gate
    requires MayResume(g, i)
  {
    if !Grants(g, i) then g.(callers := g.callers[i := g.callers[i].(answer := Failed)])
    else
      var t := g.prompts[g.callers[i].prompt].outcome.value.tab;
      var u := g.(stopped := false, manualApprovalRequired := false, lastCommandAt := now,
                  callers := g.callers[i := g.callers[i].(answer := Granted(t))]);
      match EntryForTab(g, t)
      case Some(e) => u.(active := Some(e.handle))
      case None => Register(u, t, Approved, true)
  }

  function RegisterCreated(g: Gate, t: Tab, makeActive: bool): Gate {
    match EntryForTab(g, t)
    case Some(e) => if makeActive then g.(active := Some(e.handle)) else g
    case None => if |CreatedEntries(g.tabs)| >= MAX_TASK_CREATED_TABS then g else Register(g, t, Created, makeActive)
  }

  function RegisterFull(g: Gate, t: Tab): Gate {
    if EntryForTab(g, t).Some? || g.mode.TaskTabs? then g else Register(g, t, Full, false)
  }

  function Select(g: Gate, h: Handle, mode: Mode, now: int): Gate {
    var m := SetMode(g, mode);
    match EntryForHandle(m.tabs, h)
    case None => m
    case Some(e) => if mode.TaskTabs? && e.origin.Full? then m else m.(active := Some(h), lastCommandAt := now)
  }

  function Revoke(g: Gate, manual: bool): Gate {
    ClearAuthorization(g, true).(lastCommandAt := 0, manualApprovalRequired := g.manualApprovalRequired || manual)
  }

  function EndTask(g: Gate): Gate {
    ClearAuthorization(g.(generation := g.generation + 1), false).(lastCommandAt := 0)
  }

  function Stop(g: Gate): Gate {
    EndTask(g.(stopped := true))
  }

  function RemoveTab(g: Gate, t: Tab): Gate {
    match EntryForTab(g, t)
    case None => g
    case Some(e) =>
      var k := Keep(g, (x: Entry) => x != e);
      if g.active == Some(e.handle) then k.(active := FirstAllowed(k.tabs, k.mode)) else k
  }

  datatype Event =
    | RequireTab(mode: Mode, now: int)
    | PromptSettles(prompt: nat, outcome: Outcome)
    | CallerResumes(caller: nat, now: int)
    | ModeApplied(mode: Mode)
    | TabCreated(tab: Tab, makeActive: bool)
    | FullTabFound(tab: Tab)
    | HandleSelected(handle: Handle, mode: Mode, now: int)
    | ConsentRevoked(manual: bool)
    | Stopped
    | TaskEnded
    | TabRemoved(tab: Tab)

  function Step(g: Gate, e: Event): Gate {
    match e
    case RequireTab(mode, now) => Require(g, mode, now)
    case PromptSettles(i, outcome) => if i < |g.prompts| && g.prompts[i].outcome.None? then Settle(g, i, outcome) else g
    case CallerResumes(i, now) => if MayResume(g, i) then Resume(g, i, now) else g
    case ModeApplied(mode) => SetMode(g, mode)
    case TabCreated(t, makeActive) => RegisterCreated(g, t, makeActive)
    case FullTabFound(t) => RegisterFull(g, t)
    case HandleSelected(h, mode, now) => Select(g, h, mode, now)
    case ConsentRevoked(manual) => Revoke(g, manual)
    case Stopped => Stop(g)
    case TaskEnded => EndTask(g)
    case TabRemoved(t) => RemoveTab(g, t)
  }

  function Exec(g: Gate, es: seq<Event>): Gate
    decreases |es|
  {
    if es == [] then g else Exec(Step(g, es[0]), es[1..])
  }

  // ---------------------------------------------------------------- what every step keeps

  ghost predicate Ascending(tabs: seq<Entry>) {
    forall i, j | 0 <= i < j < |tabs| :: tabs[i].handle < tabs[j].handle
  }

  /** Handles grow along the table, so none is ever used twice, and the two tables are inverse. */
  ghost predicate TabsOk(tabs: seq<Entry>, handleByTab: map<Tab, Handle>, nextHandle: Handle) {
    && Ascending(tabs)
    && (forall e <- tabs :: e.handle < nextHandle && e.tab in handleByTab && handleByTab[e.tab] == e.handle)
    && (forall t <- handleByTab :: exists e :: e in tabs && e.tab == t)
  }

  ghost predicate ActiveOk(tabs: seq<Entry>, active: Option<Handle>) {
    active.Some? ==> exists e :: e in tabs && e.handle == active.value
  }

  ghost predicate ScopeOk(tabs: seq<Entry>, mode: Mode) {
    && (mode.TaskTabs? ==> forall e <- tabs :: !e.origin.Full?)
    && |CreatedEntries(tabs)| <= MAX_TASK_CREATED_TABS
  }

  /** At most one prompt is unanswered, and it is the one in flight. */
  ghost predicate PromptsOk(prompts: seq<Prompt>, promptInFlight: Option<nat>, promptGeneration: nat, generation: nat) {
    && (forall i | 0 <= i < |prompts| :: prompts[i].outcome.None? <==> promptInFlight == Some(i))
    && (promptInFlight.Some? ==> promptInFlight.value < |prompts| && prompts[promptInFlight.value].generation == promptGeneration)
    && (forall i | 0 <= i < |prompts| :: prompts[i].generation <= generation)
  }

  ghost predicate CallersOk(prompts: seq<Prompt>, callers: seq<Caller>) {
    forall i | 0 <= i < |callers| :: callers[i].prompt < |prompts| && callers[i].generation == prompts[callers[i].prompt].generation
  }

  /** While stopped, every prompt of the current generation was shown without pre-approval. */
  ghost predicate LatchOk(prompts: seq<Prompt>, generation: nat, stopped: bool) {
    stopped ==> forall i | 0 <= i < |prompts| :: prompts[i].generation == generation ==> !prompts[i].allowPreApproval
  }

  ghost predicate TablesOk(g: Gate) {
    TabsOk(g.tabs, g.handleByTab, g.nextHandle) && ActiveOk(g.tabs, g.active) && ScopeOk(g.tabs, g.mode)
  }

  ghost predicate ConsentOk(g: Gate) {
    && PromptsOk(g.prompts, g.promptInFlight, g.promptGeneration, g.generation)
    && CallersOk(g.prompts, g.callers)
    && LatchOk(g.prompts, g.generation, g.stopped)
  }

  ghost predicate Inv(g: Gate) {
    TablesOk(g) && ConsentOk(g)
  }
}
