/**
 * The desktop executor (apps/app-desktop/src/embedded-browser.ts) and the relay's half of its
 * link, as one state machine.  A link is one WebSocket connection of the current `RelayClient`:
 * FIFO both ways, and everything in flight is lost when it drops.  Every stretch of code between
 * two `await`s is one step; the promise chain `queue` is a numbered lane of jobs.  What the relay
 * may do here on its own is proved to be all that the relay's model does in `ComposedFence`.
 */
module Fence {
  import opened Options

  datatype Op = Navigate | OpenTab | Stop | OtherOp

  /**
   * A command frame.  `durable` marks `deliverPendingStop`, whose frames carry no epoch.  `seen` is
   * history: how many Stop announcements the relay had processed on this link when it sent it.
   */
  datatype Command = Command(op: Op, controlEpoch: Option<nat>, durable: bool, seen: nat)
  /** `Refusal` is the relay's `error`, after which it closes the socket. */
  datatype Frame = Ready | Refusal | Cmd(command: Command)

  /** How far the relay is with a socket: not open yet, open and not admitted, admitted, or refused. */
  datatype Stage = Opening | Greeting | Registered | Refused

  /**
   * `up` and `down` are in flight; an event in `up` is the epoch it carries, if any.  `relayEpoch` is
   * the relay's `conn.controlEpoch`.  `announced`, `again` and `processed` are history: the epochs
   * announced on this link, which of them only repeated the one before, and how many the relay has read.
   */
  datatype Link = Link(
    id: nat,
    stage: Stage,
    ready: bool,
    announced: seq<nat>,
    again: Option<nat>,
    up: seq<Option<nat>>,
    processed: nat,
    relayEpoch: Option<nat>,
    down: seq<Frame>)

  datatype JobState = Queued | Executing | Succeeded | Failed | Dropped
  /** One entry of the promise chain: the command with the generation captured for it. */
  datatype Job = Job(command: Command, generation: nat, lane: nat, state: JobState, effects: nat)

  datatype Pairing = Idle | Asking(generation: nat, automatic: bool) | Connecting(generation: nat, automatic: bool)

  datatype Desktop = Desktop(
    generation: nat,
    commandEpoch: Option<nat>,
    active: bool,
    released: bool,
    host: bool,
    hosts: nat,                  // how many were ever started
    partition: bool,
    automaticBlocked: bool,
    executor: Option<nat>,       // the generation its platform checks
    pairing: Pairing,
    client: bool,                // `relay`
    lane: nat,                   // `queue`: how often it was reset
    jobs: seq<Job>,
    link: Option<Link>,
    links: nat)

  const START := Desktop(0, None, false, false, false, 0, false, false, None, Idle, false, 0, [], None, 0)

  // ---------------------------------------------------------------- stopping and starting

  /** `relay?.sendEvent("stopped", epoch)`: sent whenever the socket is open, `ready` or not. */
  function Announced(link: Option<Link>, epoch: nat): Option<Link> {
    if link.Some? && !link.value.stage.Opening?
    then Some(link.value.(announced := link.value.announced + [epoch], up := link.value.up + [Some(epoch)]))
    else link
  }

  /** `relay?.sendEvent("tab_closed")`. */
  function TabClosedSent(link: Option<Link>): Option<Link> {
    if link.Some? && !link.value.stage.Opening? then Some(link.value.(up := link.value.up + [None])) else link
  }

  /** `stop(blockAutomatic, true)`: the renderers go, the control channel stays. */
  function Shutdown(d: Desktop): Desktop {
    d.(automaticBlocked := true, active := false, generation := d.generation + 1,
       commandEpoch := Some(d.generation + 1), link := Announced(d.link, d.generation + 1),
       executor := None, host := false, lane := d.lane + 1)
  }

  /** `stop(blockAutomatic, false)`: control ends for good. */
  function StopAll(d: Desktop, blockAutomatic: bool): Desktop {
    d.(automaticBlocked := d.automaticBlocked || blockAutomatic, active := false, generation := d.generation + 1,
       client := false, commandEpoch := None, link := None, partition := false,
       executor := None, host := false, lane := d.lane + 1)
  }

  function Dispose(d: Desktop, preserveAutomaticBlock: bool): Desktop {
    StopAll(d, false).(automaticBlocked := d.automaticBlocked && preserveAutomaticBlock)
  }

  /** Control ends, the host and its tabs stay. */
  function ReleaseControl(d: Desktop): Desktop {
    if !d.host then Shutdown(d)
    else
      d.(generation := d.generation + 1, commandEpoch := Some(d.generation + 1),
         link := Announced(d.link, d.generation + 1),
         executor := None, released := true, lane := d.lane + 1)
  }

  function StartHost(d: Desktop): Desktop {
    d.(host := true, hosts := d.hosts + 1, released := false, partition := true, automaticBlocked := false, active := true,
       executor := Some(d.generation))
  }

  /** A new generation and its host; the host's constructor may throw after the generation has moved on. */
  function StartNext(d: Desktop, hostOk: bool): Desktop {
    var n := d.(generation := d.generation + 1);
    if hostOk then StartHost(n) else n
  }

  /** `show` when there is no host. */
  function Show(d: Desktop, hostOk: bool): Desktop {
    if !d.host && d.partition && d.client && d.link.Some? && d.link.value.ready then StartNext(d, hostOk) else d
  }

  // ---------------------------------------------------------------- commands

  /** The epoch test at the top of `receive`. */
  predicate Passes(d: Desktop, c: Command) {
    d.commandEpoch.Some? ==> c.controlEpoch == d.commandEpoch
  }

  predicate Starter(op: Op) {
    op == Navigate || op == OpenTab
  }

  /** A released host is taken back by the next task's first command. */
  function TakeBack(d: Desktop): Desktop {
    if d.released && d.host then d.(released := false, executor := Some(d.generation)) else d
  }

  function Enqueue(d: Desktop, c: Command): Desktop {
    d.(jobs := d.jobs + [Job(c, d.generation, d.lane, Queued, 0)])
  }

  /** `receive`; `urlOk` is `browserUrl`'s verdict on a starter's URL, `hostOk` whether a host can be made. */
  function Receive(d: Desktop, c: Command, urlOk: bool, hostOk: bool): Desktop {
    if !Passes(d, c) then d
    else if c.op == Stop then ReleaseControl(d)
    else Accept(d, c, urlOk, hostOk)
  }

  /** `receive` past the fence and Stop: take the host back or start one, and queue the command. */
  function Accept(d: Desktop, c: Command, urlOk: bool, hostOk: bool): Desktop {
    var t := TakeBack(d);
    if !t.active && t.partition && (Starter(c.op) || !t.automaticBlocked) then
      if Starter(c.op) && !urlOk then t
      else if !hostOk then StartNext(t, false)
      else Enqueue(StartNext(t, true), c)
    else Enqueue(t, c)
  }

  /** The `ready` state change: control that was not stopped drops its fence, stopped control announces it again. */
  function OnReady(d: Desktop): Desktop
    requires d.link.Some?
  {
    var link := Some(d.link.value.(ready := true));
    if d.active && !d.released then d.(link := link, commandEpoch := None)
    else if d.commandEpoch.Some? then d.(link := Announced(Some(Repeating(link.value)), d.commandEpoch.value))
    else d.(link := link)
  }

  /** What is announced next was announced on this link before, if anything was. */
  function Repeating(l: Link): Link {
    if l.announced == [] then l else l.(again := Some(|l.announced|))
  }

  /** The next frame from the relay. */
  function DesktopReads(d: Desktop, urlOk: bool, hostOk: bool): Desktop
    requires d.link.Some? && d.link.value.down != []
  {
    var frame := d.link.value.down[0];
    var r := d.(link := Some(d.link.value.(down := d.link.value.down[1..])));
    match frame
    case Ready => OnReady(r)
    case Refusal => StopAll(r, true)
    case Cmd(c) => Receive(r, c, urlOk, hostOk)
  }

  // ---------------------------------------------------------------- the queue

  /** `check`. */
  predicate Checks(d: Desktop, j: Job) {
    d.active && j.generation == d.generation
  }

  /** Everything queued before it in its lane has ended. */
  predicate MayBegin(jobs: seq<Job>, i: nat) {
    && i < |jobs| && jobs[i].state.Queued?
    && forall h: nat :: h < i && jobs[h].lane == jobs[i].lane ==> !jobs[h].state.Queued? && !jobs[h].state.Executing?
  }

  /** The `catch`: a failure of another generation is not reported. */
  function Caught(d: Desktop, j: Job): JobState {
    if j.generation != d.generation then Dropped else Failed
  }

  function SetJob(d: Desktop, i: nat, j: Job): Desktop
    requires i < |d.jobs|
  {
    d.(jobs := d.jobs[i := j])
  }

  function JobBegins(d: Desktop, i: nat): Desktop
    requires i < |d.jobs|
  {
    SetJob(d, i, d.jobs[i].(state := if Checks(d, d.jobs[i]) then Executing else Caught(d, d.jobs[i])))
  }

  /** A debugger call: its platform checks first. */
  function JobActs(d: Desktop, i: nat): Desktop
    requires i < |d.jobs|
  {
    var j := d.jobs[i];
    SetJob(d, i, if Checks(d, j) then j.(effects := j.effects + 1) else j.(state := Caught(d, j)))
  }

  function JobEnds(d: Desktop, i: nat, threw: bool): Desktop
    requires i < |d.jobs|
  {
    SetJob(d, i, d.jobs[i].(state := if !threw && Checks(d, d.jobs[i]) then Succeeded else Caught(d, d.jobs[i])))
  }

  // ---------------------------------------------------------------- pairing

  /** `pair` up to its first `await`; `expected` is the caller's `expectedControlEpoch`. */
  function PairStarts(d: Desktop, expected: Option<nat>, automatic: bool, approved: bool): Desktop {
    if d.pairing != Idle then d
    else if expected.Some? && expected.value != d.generation then d
    else if automatic && (d.automaticBlocked || d.active || d.partition) then d
    else
      var r := Dispose(d, false);
      r.(pairing := if approved then Connecting(r.generation, automatic) else Asking(r.generation, automatic),
         client := approved)
  }

  function PairAnswered(d: Desktop, allow: bool): Desktop
    requires d.pairing.Asking?
  {
    if d.pairing.generation != d.generation then d.(pairing := Idle)
    else if !allow then d.(pairing := Idle, automaticBlocked := true)
    else d.(pairing := Connecting(d.pairing.generation, d.pairing.automatic), client := true, link := None)
  }

  function PairSettles(d: Desktop, connected: bool, hostOk: bool): Desktop
    requires d.pairing.Connecting?
  {
    var r := d.(pairing := Idle);
    if d.pairing.generation != d.generation then r
    else if !connected then Dispose(r, false)
    else if d.pairing.automatic then r.(partition := true, automaticBlocked := false)
    else if !hostOk then Dispose(r, false)
    else StartHost(r)
  }

  // ---------------------------------------------------------------- the link

  function LinkUp(d: Desktop): Desktop {
    d.(link := Some(Link(d.links, Opening, false, [], None, [], 0, None, [])), links := d.links + 1)
  }

  /** `onopen`: from here on frames are sent. */
  function Opens(l: Link): Link {
    if l.stage.Opening? then l.(stage := Greeting) else l
  }

  /** The relay admits the hello and answers `ready`. */
  function RelayAdmits(l: Link): Link {
    if l.stage.Greeting? then l.(stage := Registered, down := [Ready]) else l
  }

  /** The relay turns the hello down, or an event that comes before the hello is admitted. */
  function RelayRefuses(l: Link): Link {
    if l.stage.Greeting? then l.(stage := Refused, down := [Refusal]) else l
  }

  /** The relay handles the next event of a registered connection. */
  function RelayReads(l: Link): Link {
    if !l.stage.Registered? || l.up == [] then l
    else if l.up[0].None? then l.(up := l.up[1..])
    else l.(relayEpoch := l.up[0], up := l.up[1..], processed := l.processed + 1)
  }

  /** The relay puts a command on the link: `dispatchBoundCommand` with its fence, `deliverPendingStop` without. */
  function RelaySends(l: Link, op: Op, durable: bool): Link {
    if !l.stage.Registered? then l
    else
      var c := if durable then Command(Stop, None, true, l.processed) else Command(op, l.relayEpoch, false, l.processed);
      l.(down := l.down + [Cmd(c)])
  }

  datatype Event =
    | Connected
    | SocketOpened
    | Disconnected
    | RelayAdmitted
    | RelayRefused
    | RelayHandlesEvent
    | RelayDispatches(op: Op)
    | RelayDeliversStop
    | FrameArrives(urlOk: bool, hostOk: bool)
    | Unpaired                       // `unpaired` or `replaced`
    | ToolbarStop
    | LastTabClosed
    | AttachedTabClosed
    | HostClosed
    | DebuggerDetached
    | ShowPressed(hostOk: bool)
    | Disposed(preserveAutomaticBlock: bool)
    | PairRequested(expected: Option<nat>, automatic: bool, approved: bool)
    | DialogAnswered(allow: bool)
    | PairingSettled(connected: bool, hostOk: bool)
    | Began(job: nat)
    | Acted(job: nat)
    | Ended(job: nat, threw: bool)

  /** What the socket and the relay do to the link. */
  function LinkStep(d: Desktop, e: Event): Desktop {
    match e
    case Connected => if d.client && d.link.None? then LinkUp(d) else d
    case Disconnected => d.(link := None)
    case _ => if d.link.Some? then d.(link := Some(Moved(d.link.value, e))) else d
  }

  function Moved(l: Link, e: Event): Link {
    match e
    case SocketOpened => Opens(l)
    case RelayAdmitted => RelayAdmits(l)
    case RelayRefused => RelayRefuses(l)
    case RelayHandlesEvent => RelayReads(l)
    case RelayDispatches(op) => RelaySends(l, op, false)
    case RelayDeliversStop => RelaySends(l, Stop, true)
    case _ => l
  }

  /** What the user does, and being unpaired. */
  function UserStep(d: Desktop, e: Event): Desktop {
    match e
    case Unpaired => if d.client then StopAll(d, true) else d
    case ToolbarStop => if d.host then ReleaseControl(d) else d
    case LastTabClosed => if d.host then Shutdown(d) else d
    case AttachedTabClosed => if d.host && d.executor.Some? then d.(link := TabClosedSent(d.link)) else d
    case HostClosed => if d.host then Dispose(d, false) else d
    case DebuggerDetached => if d.host && d.executor.Some? then StopAll(d, true) else d
    case ShowPressed(hostOk) => Show(d, hostOk)
    case Disposed(preserve) => Dispose(d, preserve)
    case _ => d
  }

  function PairStep(d: Desktop, e: Event): Desktop {
    match e
    case PairRequested(expected, automatic, approved) => PairStarts(d, expected, automatic, approved)
    case DialogAnswered(allow) => if d.pairing.Asking? then PairAnswered(d, allow) else d
    case PairingSettled(connected, hostOk) => if d.pairing.Connecting? then PairSettles(d, connected, hostOk) else d
    case _ => d
  }

  function JobStep(d: Desktop, e: Event): Desktop {
    match e
    case Began(i) => if MayBegin(d.jobs, i) then JobBegins(d, i) else d
    case Acted(i) => if i < |d.jobs| && d.jobs[i].state.Executing? then JobActs(d, i) else d
    case Ended(i, threw) => if i < |d.jobs| && d.jobs[i].state.Executing? then JobEnds(d, i, threw) else d
    case _ => d
  }

  /** The steps of the link and of the relay's side of it. */
  predicate OfLink(e: Event) {
    || e.Connected? || e.SocketOpened? || e.Disconnected? || e.RelayAdmitted? || e.RelayRefused?
    || e.RelayHandlesEvent? || e.RelayDispatches? || e.RelayDeliversStop?
  }

  predicate OfPairing(e: Event) {
    e.PairRequested? || e.DialogAnswered? || e.PairingSettled?
  }

  predicate OfJobs(e: Event) {
    e.Began? || e.Acted? || e.Ended?
  }

  /** One atomic step; an event that cannot happen changes nothing. */
  function Step(d: Desktop, e: Event): Desktop {
    if OfLink(e) then LinkStep(d, e)
    else if OfPairing(e) then PairStep(d, e)
    else if OfJobs(e) then JobStep(d, e)
    else if e.FrameArrives? then
      if d.link.Some? && d.link.value.down != [] then DesktopReads(d, e.urlOk, e.hostOk) else d
    else UserStep(d, e)
  }

  function Exec(d: Desktop, es: seq<Event>): Desktop
    decreases |es|
  {
    if es == [] then d else Exec(Step(d, es[0]), es[1..])
  }

  // ---------------------------------------------------------------- what every step keeps

  /** Each epoch is larger than those before, except that the one at `again` repeats its predecessor. */
  ghost predicate Rising(s: seq<nat>, again: Option<nat>, bound: nat) {
    && (forall i, j | 0 <= i < j < |s| :: s[i] < s[j] || (s[i] == s[j] && j == i + 1 && again == Some(j)))
    && (forall i | 0 <= i < |s| :: s[i] <= bound)
    && (again.Some? ==> 0 < again.value < |s| && s[again.value] == s[again.value - 1])
  }

  /** The epochs in flight. */
  function Epochs(up: seq<Option<nat>>): seq<nat> {
    if up == [] then [] else EpochOf(up[0]) + Epochs(up[1..])
  }

  function EpochOf(event: Option<nat>): seq<nat> {
    if event.Some? then [event.value] else []
  }

  /** The relay's epoch after it has processed the first `n` announcements. */
  function EpochAfter(announced: seq<nat>, n: nat): Option<nat>
    requires n <= |announced|
  {
    if n == 0 then None else Some(announced[n - 1])
  }

  ghost predicate CommandOk(c: Command, announced: seq<nat>, processed: nat) {
    && c.seen <= processed <= |announced|
    && (if c.durable then c.op == Stop && c.controlEpoch.None? else c.controlEpoch == EpochAfter(announced, c.seen))
  }

  /** What was announced, and what of it is in force. */
  ghost predicate AnnouncedOk(l: Link, commandEpoch: Option<nat>, generation: nat, dormant: bool) {
    && Rising(l.announced, l.again, generation)
    && (l.again.Some? ==> l.ready)
    && (l.announced != [] ==> commandEpoch == EpochAfter(l.announced, |l.announced|))
    && (l.announced == [] && l.ready ==> commandEpoch.None?)
    && (l.announced != [] && !l.ready ==> dormant)
  }

  /** How far the relay is with it. */
  ghost predicate WireOk(l: Link) {
    match l.stage
    case Opening => !l.ready && l.announced == [] && l.up == [] && l.processed == 0 && l.relayEpoch.None? && l.down == []
    case Greeting => !l.ready && Epochs(l.up) == l.announced && l.processed == 0 && l.relayEpoch.None? && l.down == []
    case Refused => !l.ready && l.down == [Refusal]
    case Registered =>
      && l.processed <= |l.announced| && Epochs(l.up) == l.announced[l.processed..]
      && l.relayEpoch == EpochAfter(l.announced, l.processed)
      && (!l.ready ==> l.down != [] && l.down[0].Ready?)
      && (forall i | 0 <= i < |l.down| && (l.ready || i > 0) :: l.down[i].Cmd? && CommandOk(l.down[i].command, l.announced, l.processed))
  }

  ghost predicate LinkOk(l: Link, commandEpoch: Option<nat>, generation: nat, dormant: bool) {
    AnnouncedOk(l, commandEpoch, generation, dormant) && WireOk(l)
  }

  /** Control was taken from Brian, or never given. */
  predicate Dormant(d: Desktop) {
    !(d.active && !d.released)
  }

  ghost predicate ControlOk(d: Desktop) {
    && d.active == d.host
    && d.executor == (if d.active && !d.released then Some(d.generation) else None)
    && (d.commandEpoch.Some? ==> d.commandEpoch.value <= d.generation)
    && (d.link.Some? ==> d.client && d.link.value.id < d.links && LinkOk(d.link.value, d.commandEpoch, d.generation, Dormant(d)))
    && (!d.pairing.Idle? ==> d.pairing.generation <= d.generation)
    && (!d.pairing.Idle? && d.pairing.generation == d.generation ==> !d.host && !d.partition && d.commandEpoch.None?)
    && (d.pairing.Asking? && d.pairing.generation == d.generation ==> !d.client)
  }

  ghost predicate JobsOk(jobs: seq<Job>, generation: nat, lane: nat, active: bool, released: bool) {
    && (forall i | 0 <= i < |jobs| :: jobs[i].generation <= generation && jobs[i].lane <= lane)
    && (forall i | 0 <= i < |jobs| :: jobs[i].lane < lane ==> jobs[i].generation < generation)
    && (forall i | 0 <= i < |jobs| :: active && released ==> jobs[i].generation < generation)
    && (forall i | 0 <= i < |jobs| :: jobs[i].state.Executing? && jobs[i].generation == generation ==> active)
    && (forall h, i | 0 <= h < i < |jobs| :: jobs[h].lane == jobs[i].lane && !jobs[i].state.Queued?
          ==> !jobs[h].state.Queued? && !jobs[h].state.Executing?)
  }

  ghost predicate Inv(d: Desktop) {
    ControlOk(d) && JobsOk(d.jobs, d.generation, d.lane, d.active, d.released)
  }
}
