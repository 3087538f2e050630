/**
 * The browser relay (apps/browser-relay/src/relay.ts) as a state and the atomic steps on it.
 *
 * Every stretch of code between two `await`s is one step.  A suspended handler is a `Flight`
 * holding what its closure captured; an armed `setTimeout` is an entry of `timers` or
 * `retries`; a `dispatchCommand` call queued behind `commandTails` is a `Job`.  Sockets,
 * tasks, users and profiles are abstract identities; `randomUUID`, `new Map` and promise
 * identities all draw from one counter, so a larger id was created later.
 */
module RelayState {
  import opened Options

  type Socket = nat
  type ConnId = nat
  type CommandId = nat
  type JobId = nat
  type FlightId = nat
  type TaskId = nat

  const RETIRED_LIMIT := 1024
  const LIVENESS_WINDOW_MS := 90_000

  /** `connectionKey`: NUL occurs in neither part, so the joined string is the pair. */
  datatype Key = Key(userId: nat, browserProfileId: nat)
  datatype Op = Navigate | OpenTab | Stop | FillReference | OtherOp
  datatype Terminal = Stopped | TabClosed
  datatype EventKind = EvStopped | EvTabClosed | EvDetached

  /** What the stored `resolve` closure does. */
  datatype Resolver =
    | Delivery                                // deliverPendingStop's own closure
    | Call(bound: bool, job: Option<JobId>)   // a dispatchBoundCommand promise
  datatype Pending = Pending(op: Op, resolver: Resolver)

  /** The fields of a `Connection` that never change. */
  datatype Conn = Conn(key: Key, socket: Socket, fillAllowed: bool)
  datatype Binding = Binding(activeTaskId: Option<TaskId>, retiredTaskIds: set<TaskId>)

  /** One task-bound `dispatchCommand` call: what it captured, and how far it is. */
  datatype Job = Job(key: Key, connection: Option<ConnId>, taskId: TaskId, op: Op, previous: Option<JobId>)
  datatype Phase = Waiting | Running | Checking(flight: FlightId) | OnWire(id: CommandId) | Done

  datatype Command = Command(key: Key, taskId: Option<TaskId>, op: Op, job: Option<JobId>)

  datatype Flight =
    | HelloFlight(socket: Socket, key: Key, fillAllowed: bool)
    | PingFlight(conn: ConnId)
    | SafetyFlight(conn: ConnId)
    | ResultFlight(conn: ConnId, id: CommandId, ok: bool)
    | RenewFlight(conn: ConnId)
    | DispatchFlight(conn: ConnId, command: Command)

  /** A command frame put on a socket. */
  datatype Sent = Sent(conn: ConnId, op: Op, taskId: Option<TaskId>, controlEpoch: Option<nat>, resolver: Resolver)

  /** How a pending entry's promise or callback is answered: by the extension, by its timer, or because an event or the end of its connection aborted it. */
  datatype Answer = AnsweredOk | AnsweredFailed | Expired | Aborted

  /** The mutable fields of connections and calls are tables indexed by their identity. */
  datatype Relay = Relay(
    conns: map<ConnId, Conn>,
    pending: map<ConnId, map<CommandId, Pending>>,
    binding: map<ConnId, Binding>,
    terminalEvent: map<ConnId, Option<Terminal>>,
    controlEpoch: map<ConnId, Option<nat>>,
    lastSeenAt: map<ConnId, int>,
    byConnection: map<Key, ConnId>,
    bySocket: map<Socket, ConnId>,
    terminalByConnection: map<Key, Terminal>,
    pendingStops: set<Key>,
    closed: set<Socket>,
    admitting: set<Socket>,
    timers: map<CommandId, ConnId>,     // armed command timers, with the captured `conn`
    retries: multiset<ConnId>,          // armed one-second Stop retries, with the captured `conn`
    flights: map<FlightId, Flight>,
    jobs: map<JobId, Job>,
    phase: map<JobId, Phase>,
    commandTails: map<Key, JobId>,
    issued: map<CommandId, Sent>,       // every command frame ever sent
    settled: multiset<CommandId>,       // one occurrence for each time a command was settled
    answers: map<CommandId, Answer>,    // with what
    next: nat)

  const EMPTY := Relay(map[], map[], map[], map[], map[], map[], map[], map[], map[], {}, {}, {},
                       map[], multiset{}, map[], map[], map[], map[], map[], multiset{}, map[], 0)

  function Get<K, V>(m: map<K, V>, k: K, default: V): V {
    if k in m then m[k] else default
  }

  function PendingOf(r: Relay, c: ConnId): map<CommandId, Pending> {
    Get(r.pending, c, map[])
  }

  function BindingOf(r: Relay, c: ConnId): Binding {
    Get(r.binding, c, Binding(None, {}))
  }

  function PhaseOf(r: Relay, j: JobId): Phase {
    Get(r.phase, j, Done)
  }

  // ---------------------------------------------------------------- registry

  predicate Registered(conns: map<ConnId, Conn>, byConnection: map<Key, ConnId>, c: ConnId) {
    c in conns && conns[c].key in byConnection && byConnection[conns[c].key] == c
  }

  predicate IsRegistered(r: Relay, c: ConnId) {
    Registered(r.conns, r.byConnection, c)
  }

  /** `current`. */
  predicate Current(r: Relay, c: ConnId) {
    && c in r.conns
    && r.conns[c].socket !in r.closed
    && Lookup(r.bySocket, r.conns[c].socket) == Some(c)
    && Lookup(r.byConnection, r.conns[c].key) == Some(c)
  }

  function DeliveriesOf(p: map<CommandId, Pending>): set<CommandId> {
    set id | id in p && p[id].resolver.Delivery?
  }

  function JobsOf(p: map<CommandId, Pending>): set<JobId> {
    set id | id in p && JobIn(p[id].resolver).Some? :: JobIn(p[id].resolver).value
  }

  function FinishAll(phase: map<JobId, Phase>, done: set<JobId>): map<JobId, Phase> {
    map j | j in phase.Keys + done :: if j in done then Done else phase[j]
  }

  /** Move one call, if there is one, to another phase. */
  function WithPhase(phase: map<JobId, Phase>, job: Option<JobId>, next: Phase): map<JobId, Phase> {
    if job.Some? then phase[job.value := next] else phase
  }

  function JobIn(resolver: Resolver): Option<JobId> {
    if resolver.Call? then resolver.job else None
  }

  function Finish(r: Relay, job: Option<JobId>): Relay {
    r.(phase := WithPhase(r.phase, job, Done))
  }

  function SetRunning(r: Relay, job: Option<JobId>): Relay {
    r.(phase := WithPhase(r.phase, job, Running))
  }

  function Told(answers: map<CommandId, Answer>, ids: set<CommandId>, answer: Answer): map<CommandId, Answer> {
    map id | id in answers.Keys + ids :: if id in ids then answer else answers[id]
  }

  /** `rejectPending`: disarm and fail everything in flight on one connection. */
  function RejectPending(r: Relay, c: ConnId): Relay {
    var p := PendingOf(r, c);
    r.(pending := r.pending[c := map[]],
       timers := r.timers - p.Keys,
       settled := r.settled + multiset(p.Keys),
       answers := Told(r.answers, p.Keys, Aborted),
       retries := r.retries[c := r.retries[c] + |DeliveriesOf(p)|],
       phase := FinishAll(r.phase, JobsOf(p)))
  }

  /** The profile table once this socket's own entry, if it is still the registered one, is gone. */
  function WithoutSocket(conns: map<ConnId, Conn>, byConnection: map<Key, ConnId>, bySocket: map<Socket, ConnId>, s: Socket): map<Key, ConnId> {
    if s in bySocket && bySocket[s] in conns then
      var k := conns[bySocket[s]].key;
      if k in byConnection && byConnection[k] in conns && conns[byConnection[k]].socket == s then byConnection - {k} else byConnection
    else byConnection
  }

  function Unregister(r: Relay, s: Socket): Relay {
    r.(closed := r.closed + {s},
       bySocket := r.bySocket - {s},
       byConnection := WithoutSocket(r.conns, r.byConnection, r.bySocket, s))
  }

  /** `handleDisconnect`, and `revoke` apart from its `socket.close`. */
  function Disconnect(r: Relay, s: Socket): Relay {
    Unregister(if s in r.bySocket then RejectPending(r, r.bySocket[s]) else r, s)
  }

  function Register(r: Relay, s: Socket, k: Key, fillAllowed: bool, now: int): Relay {
    var c := r.next;
    r.(conns := r.conns[c := Conn(k, s, fillAllowed)],
       pending := r.pending[c := map[]],
       binding := r.binding[c := Binding(None, {})],
       terminalEvent := r.terminalEvent[c := Lookup(r.terminalByConnection, k)],
       controlEpoch := r.controlEpoch[c := None],
       lastSeenAt := r.lastSeenAt[c := now],
       byConnection := r.byConnection[k := c],
       bySocket := r.bySocket[s := c],
       next := c + 1)
  }

  function SetTerminal(r: Relay, c: ConnId, k: Key, event: Option<Terminal>): Relay {
    r.(terminalEvent := r.terminalEvent[c := event],
       terminalByConnection := match event
         case Some(e) => r.terminalByConnection[k := e]
         case None => r.terminalByConnection - {k})
  }

  /** Put one command on the wire: a pending entry, its timer and the frame. */
  function Issue(r: Relay, c: ConnId, op: Op, taskId: Option<TaskId>, epoch: Option<nat>, resolver: Resolver): Relay {
    var id := r.next;
    r.(pending := r.pending[c := PendingOf(r, c)[id := Pending(op, resolver)]],
       timers := r.timers[id := c],
       issued := r.issued[id := Sent(c, op, taskId, epoch, resolver)],
       phase := WithPhase(r.phase, JobIn(resolver), OnWire(id)),
       next := id + 1)
  }

  /** `deliverPendingStop`: the frame carries no control epoch. */
  function DeliverPendingStop(r: Relay, c: ConnId, k: Key): Relay {
    if k in r.pendingStops then Issue(r, c, Stop, None, None, Delivery) else r
  }

  /** The `retry` closure of `deliverPendingStop`. */
  function Retry(r: Relay, c: ConnId): Relay {
    if IsRegistered(r, c) then DeliverPendingStop(r, c, r.conns[c].key) else r
  }

  /** Take one command out of `pending`, disarm its timer and run its resolver. */
  function Settle(r: Relay, c: ConnId, k: Key, id: CommandId, answer: Answer): Relay
    requires id in PendingOf(r, c)
  {
    var resolver := PendingOf(r, c)[id].resolver;
    r.(pending := r.pending[c := PendingOf(r, c) - {id}],
       timers := r.timers - {id},
       settled := r.settled + multiset{id},
       answers := r.answers[id := answer],
       phase := WithPhase(r.phase, JobIn(resolver), Done),
       pendingStops := if resolver.Delivery? && answer.AnsweredOk? then r.pendingStops - {k} else r.pendingStops,
       retries := if resolver.Delivery? && answer.AnsweredFailed? then r.retries + multiset{c} else r.retries)
  }

  // ---------------------------------------------------------------- frames

  function AddFlight(r: Relay, f: Flight): Relay {
    r.(flights := r.flights[r.next := f], next := r.next + 1)
  }

  function Touch(r: Relay, c: ConnId, now: int): Relay {
    r.(lastSeenAt := r.lastSeenAt[c := now])
  }

  /** The connection a non-hello frame on this socket is handled for, if any. */
  function Receiver(r: Relay, s: Socket): Option<ConnId> {
    if s !in r.closed && s in r.bySocket && r.bySocket[s] in r.conns then Some(r.bySocket[s]) else None
  }

  function HelloFrame(r: Relay, s: Socket, identity: Option<Key>, fillAllowed: bool): Relay {
    if s in r.closed then r
    else if s in r.bySocket || s in r.admitting then Disconnect(r, s)
    else if identity.None? then r
    else AddFlight(r.(admitting := r.admitting + {s}), HelloFlight(s, identity.value, fillAllowed))
  }

  function HelloResume(r0: Relay, f: FlightId, admitted: bool, now: int): Relay
    requires f in r0.flights && r0.flights[f].HelloFlight?
  {
    var HelloFlight(s, k, fillAllowed) := r0.flights[f];
    var r := r0.(flights := r0.flights - {f}, admitting := r0.admitting - {s});
    if !admitted then Disconnect(r, s)
    else if s in r.closed then r
    else
      var replaced := if k in r.byConnection && r.byConnection[k] in r.conns && r.conns[r.byConnection[k]].socket != s
                      then Disconnect(r, r.conns[r.byConnection[k]].socket) else r;
      var registered := Register(replaced, s, k, fillAllowed, now);
      if k in registered.pendingStops
      then DeliverPendingStop(SetTerminal(registered, replaced.next, k, Some(Stopped)), replaced.next, k)
      else registered
  }

  function PingFrame(r: Relay, s: Socket, now: int): Relay {
    match Receiver(r, s)
    case None => r
    case Some(c) => AddFlight(Touch(r, c, now), PingFlight(c))
  }

  function ResultFrame(r: Relay, s: Socket, id: CommandId, ok: bool, now: int): Relay {
    match Receiver(r, s)
    case None => r
    case Some(c) =>
      var t := Touch(r, c, now);
      var k := r.conns[c].key;
      if id in PendingOf(t, c) && PendingOf(t, c)[id].op == Stop && Current(t, c) then
        var u := if ok then SetTerminal(Settle(t, c, k, id, AnsweredOk), c, k, Some(Stopped)) else Settle(t, c, k, id, AnsweredFailed);
        AddFlight(u, SafetyFlight(c))
      else AddFlight(t, ResultFlight(c, id, ok))
  }

  function TerminalOf(kind: EventKind): Option<Terminal> {
    match kind
    case EvStopped => Some(Stopped)
    case EvTabClosed => Some(TabClosed)
    case EvDetached => None
  }

  function EventFrame(r: Relay, s: Socket, kind: EventKind, epoch: Option<nat>, now: int): Relay {
    match Receiver(r, s)
    case None => r
    case Some(c) =>
      var u := r.(lastSeenAt := r.lastSeenAt[c := now],
                  controlEpoch := if kind.EvStopped? && epoch.Some? then r.controlEpoch[c := epoch] else r.controlEpoch);
      var v := if TerminalOf(kind).Some? then SetTerminal(u, c, r.conns[c].key, TerminalOf(kind)) else u;
      RejectPending(v, c)
  }

  // ---------------------------------------------------------------- dispatch

  function SetBinding(r: Relay, c: ConnId, b: Binding): Relay {
    r.(binding := r.binding[c := b])
  }

  function Retire(b: Binding): set<TaskId> {
    b.retiredTaskIds + (if b.activeTaskId.Some? then {b.activeTaskId.value} else {})
  }

  function Send(r: Relay, c: ConnId, fillAllowed: bool, cmd: Command): Relay {
    if cmd.op == FillReference && !fillAllowed then Finish(r, cmd.job)
    else Issue(r, c, cmd.op, cmd.taskId, Get(r.controlEpoch, c, None), Call(cmd.taskId.Some?, cmd.job))
  }

  /** The part of `dispatchBoundCommand` after its authority check. */
  function BindAndSend(r: Relay, c: ConnId, conn: Conn, cmd: Command): Relay {
    var b := BindingOf(r, c);
    match cmd.taskId
    case None =>
      if b.activeTaskId.Some? || b.retiredTaskIds != {} then Finish(r, cmd.job) else Send(r, c, conn.fillAllowed, cmd)
    case Some(t) =>
      if t in b.retiredTaskIds && !(cmd.op == Stop && b.activeTaskId == Some(t)) then Finish(r, cmd.job)
      else if b.activeTaskId != Some(t) then
        if cmd.op != Navigate && cmd.op != OpenTab then Finish(r, cmd.job)
        else if PendingOf(r, c) != map[] then Finish(r, cmd.job)
        else if |Retire(b)| >= RETIRED_LIMIT
        then Finish(Disconnect(SetBinding(r, c, b.(retiredTaskIds := Retire(b))), conn.socket), cmd.job)
        else Send(SetBinding(r, c, Binding(Some(t), Retire(b))), c, conn.fillAllowed, cmd)
      else if cmd.op == Stop then Send(SetBinding(r, c, b.(retiredTaskIds := b.retiredTaskIds + {t})), c, conn.fillAllowed, cmd)
      else Send(r, c, conn.fillAllowed, cmd)
  }

  /** A Stop for a profile with no connection is kept for the next one. */
  function QueueStop(r: Relay, k: Key): Relay {
    r.(pendingStops := r.pendingStops + {k}, terminalByConnection := r.terminalByConnection[k := Stopped])
  }

  /** `dispatchBoundCommand` up to its first `await`. */
  function DispatchBound(r: Relay, cmd: Command): Relay {
    if cmd.key !in r.byConnection || r.byConnection[cmd.key] !in r.conns then
      if cmd.op == Stop && cmd.taskId.None?
      then Finish(QueueStop(r, cmd.key), cmd.job)
      else Finish(r, cmd.job)
    else if cmd.op == Stop then BindAndSend(r, r.byConnection[cmd.key], r.conns[r.byConnection[cmd.key]], cmd)
    else
      AddFlight(r.(phase := WithPhase(r.phase, cmd.job, Checking(r.next))),
                DispatchFlight(r.byConnection[cmd.key], cmd))
  }

  /** The `dispatch` closure of `dispatchCommand`: only on the connection captured at submission. */
  function RunJob(r: Relay, j: JobId): Relay
    requires j in r.jobs
  {
    var job := r.jobs[j];
    if Lookup(r.byConnection, job.key) == job.connection
    then DispatchBound(r, Command(job.key, Some(job.taskId), job.op, Some(j)))
    else Finish(r, Some(j))
  }

  /** Queue a `dispatchCommand` call behind the profile's tail. */
  function AddJob(r: Relay, k: Key, t: TaskId, op: Op): Relay {
    var previous := Lookup(r.commandTails, k);
    r.(jobs := r.jobs[r.next := Job(k, Lookup(r.byConnection, k), t, op, previous)],
       phase := r.phase[r.next := if previous.None? then Running else Waiting],
       commandTails := r.commandTails[k := r.next],
       next := r.next + 1)
  }

  /** `dispatchCommand` with a task id. */
  function Submit(r: Relay, k: Key, t: TaskId, op: Op): Relay {
    var r1 := AddJob(r, k, t, op);
    if k in r.commandTails then r1 else RunJob(r1, r.next)
  }

  /** The awaited predecessor has settled. */
  predicate MayStart(r: Relay, j: JobId) {
    && j in r.jobs && PhaseOf(r, j).Waiting?
    && r.jobs[j].previous.Some? && PhaseOf(r, r.jobs[j].previous.value).Done?
  }

  // ---------------------------------------------------------------- continuations and timers

  /** What each suspended handler does with its authority verdict. */
  function CheckResume(r0: Relay, f: FlightId, allowed: bool): Relay
    requires f in r0.flights && !r0.flights[f].HelloFlight? && r0.flights[f].conn in r0.conns
  {
    var flight := r0.flights[f];
    var c := flight.conn;
    var Conn(k, s, _) := r0.conns[c];
    var r := r0.(flights := r0.flights - {f});
    match flight
    case PingFlight(_) => if allowed then r else Disconnect(r, s)
    case SafetyFlight(_) => if !allowed && Current(r, c) then Disconnect(r, s) else r
    case RenewFlight(_) => if !allowed && Current(r, c) then Disconnect(r, s) else r
    case ResultFlight(_, id, ok) =>
      if !allowed then Disconnect(r, s)
      else if !Current(r, c) || id !in PendingOf(r, c) then r
      else if ok then Settle(SetTerminal(r, c, k, None), c, k, id, AnsweredOk)
      else Settle(r, c, k, id, AnsweredFailed)
    case DispatchFlight(_, cmd) =>
      var running := SetRunning(r, cmd.job);
      if !allowed then Finish(Disconnect(running, s), cmd.job)
      else if !Current(running, c) then Finish(running, cmd.job)
      else BindAndSend(running, c, r0.conns[c], cmd)
  }

  /** A command timer is armed and its entry is there. */
  predicate Armed(r: Relay, id: CommandId) {
    id in r.timers && r.timers[id] in r.conns && id in PendingOf(r, r.timers[id])
  }

  /** A command timer fires. */
  function CommandTimeout(r: Relay, id: CommandId): Relay
    requires Armed(r, id)
  {
    var c := r.timers[id];
    var r1 := Settle(r, c, r.conns[c].key, id, Expired);
    match PendingOf(r, c)[id].resolver
    case Delivery => Retry(r1, c)
    case Call(bound, _) => if bound then Disconnect(r1, r.conns[c].socket) else r1
  }

  datatype Event =
    | Hello(socket: Socket, identity: Option<Key>, fillAllowed: bool)
    | Admitted(flight: FlightId, verdict: bool, now: int)
    | Ping(socket: Socket, now: int)
    | Result(socket: Socket, id: CommandId, ok: bool, now: int)
    | ExtensionEvent(socket: Socket, kind: EventKind, epoch: Option<nat>, now: int)
    | Checked(flight: FlightId, verdict: bool)
    | SocketClosed(socket: Socket)
    | CallUnbound(key: Key, op: Op)
    | CallBound(key: Key, taskId: TaskId, op: Op)
    | TailResolved(job: JobId)
    | TailForgotten(job: JobId)
    | TimerFired(id: CommandId)
    | RetryFired(conn: ConnId)
    | Renew(conn: ConnId)
    | Sweep(conn: ConnId, now: int)

  /** One atomic step; an event whose flight, call or timer does not exist changes nothing. */
  function Step(r: Relay, e: Event): Relay {
    match e
    case Hello(s, identity, fillAllowed) => HelloFrame(r, s, identity, fillAllowed)
    case Admitted(f, verdict, now) =>
      if f in r.flights && r.flights[f].HelloFlight? then HelloResume(r, f, verdict, now) else r
    case Ping(s, now) => PingFrame(r, s, now)
    case Result(s, id, ok, now) => ResultFrame(r, s, id, ok, now)
    case ExtensionEvent(s, kind, epoch, now) => EventFrame(r, s, kind, epoch, now)
    case Checked(f, verdict) =>
      if f in r.flights && !r.flights[f].HelloFlight? && r.flights[f].conn in r.conns then CheckResume(r, f, verdict) else r
    case SocketClosed(s) => Disconnect(r, s)
    case CallUnbound(k, op) => DispatchBound(r, Command(k, None, op, None))
    case CallBound(k, t, op) => Submit(r, k, t, op)
    case TailResolved(j) => if MayStart(r, j) then RunJob(SetRunning(r, Some(j)), j) else r
    case TailForgotten(j) =>
      if j in r.jobs && PhaseOf(r, j).Done? && Lookup(r.commandTails, r.jobs[j].key) == Some(j)
      then r.(commandTails := r.commandTails - {r.jobs[j].key}) else r
    case TimerFired(id) => if Armed(r, id) then CommandTimeout(r, id) else r
    case RetryFired(c) => if c in r.retries then Retry(r.(retries := r.retries - multiset{c}), c) else r
    case Renew(c) => if IsRegistered(r, c) then AddFlight(r, RenewFlight(c)) else r
    case Sweep(c, now) =>
      if IsRegistered(r, c) && now - Get(r.lastSeenAt, c, 0) > LIVENESS_WINDOW_MS then Disconnect(r, r.conns[c].socket) else r
  }

  function Exec(r: Relay, es: seq<Event>): Relay
    decreases |es|
  {
    if es == [] then r else Exec(Step(r, es[0]), es[1..])
  }
}
