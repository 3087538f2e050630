/** What every step of the relay keeps, one predicate per concern, each over the tables it reads. */
module RelayInvariants {
  import opened Options
  import opened RelayState

  ghost predicate FreshOk(conns: map<ConnId, Conn>, flights: map<FlightId, Flight>, jobs: map<JobId, Job>,
                          issued: map<CommandId, Sent>, next: nat) {
    && (forall c <- conns :: c < next)
    && (forall f <- flights :: f < next)
    && (forall j <- jobs :: j < next)
    && (forall id <- issued :: id < next && issued[id].conn in conns)
  }

  /** The two registries are mutually inverse and hold no closed socket. */
  ghost predicate RegistryOk(conns: map<ConnId, Conn>, byConnection: map<Key, ConnId>, bySocket: map<Socket, ConnId>, closed: set<Socket>) {
    && (forall k <- byConnection ::
          var c := byConnection[k];
          c in conns && conns[c].key == k && Lookup(bySocket, conns[c].socket) == Some(c))
    && (forall s <- bySocket ::
          var c := bySocket[s];
          s !in closed && c in conns && conns[c].socket == s && Lookup(byConnection, conns[c].key) == Some(c))
  }

  /** A registered connection and the per-profile table report the same terminal event. */
  ghost predicate TerminalOk(byConnection: map<Key, ConnId>, terminalEvent: map<ConnId, Option<Terminal>>,
                             terminalByConnection: map<Key, Terminal>) {
    forall k <- byConnection :: Get(terminalEvent, byConnection[k], None) == Lookup(terminalByConnection, k)
  }

  /** Pending entries and armed timers are the same thing. */
  ghost predicate PendingOk(pending: map<ConnId, map<CommandId, Pending>>, timers: map<CommandId, ConnId>) {
    && (forall id <- timers :: id in Get(pending, timers[id], map[]))
    && (forall c, id | c in pending && id in pending[c] :: id in timers && timers[id] == c)
  }

  /** Only a registered connection has anything pending. */
  ghost predicate NoStrandedOk(conns: map<ConnId, Conn>, byConnection: map<Key, ConnId>, timers: map<CommandId, ConnId>) {
    forall id <- timers :: Registered(conns, byConnection, timers[id])
  }

  /** A pending entry is the frame that was sent. */
  ghost predicate FramesOk(pending: map<ConnId, map<CommandId, Pending>>, timers: map<CommandId, ConnId>, issued: map<CommandId, Sent>) {
    && (forall id <- timers ::
          && id in issued && issued[id].conn == timers[id] && id in Get(pending, timers[id], map[])
          && issued[id].op == Get(pending, timers[id], map[])[id].op
          && issued[id].resolver == Get(pending, timers[id], map[])[id].resolver)
    && (forall id <- issued :: issued[id].resolver.Delivery? ==> issued[id].op == Stop && issued[id].taskId.None?)
  }

  /** A command sent is either pending, or has been settled once; nothing else was ever settled. */
  ghost predicate SettledOk(issued: map<CommandId, Sent>, timers: map<CommandId, ConnId>, settled: multiset<CommandId>) {
    forall id :: settled[id] == if id in issued && id !in timers then 1 else 0
  }

  /** Exactly one entry is a Stop delivery. */
  ghost predicate OneDelivery(p: map<CommandId, Pending>) {
    exists id :: id in p && DeliveriesOf(p) == {id}
  }

  /** A queued Stop is either being delivered or waiting for one retry; otherwise there is neither. */
  ghost predicate StopStateOk(wanted: bool, p: map<CommandId, Pending>, retries: nat) {
    if wanted
    then (retries == 0 && OneDelivery(p)) || (retries == 1 && DeliveriesOf(p) == {})
    else retries == 0 && DeliveriesOf(p) == {}
  }

  ghost predicate StopsOk(byConnection: map<Key, ConnId>, pendingStops: set<Key>, hole: set<Key>,
                          pending: map<ConnId, map<CommandId, Pending>>, retries: multiset<ConnId>) {
    forall k <- byConnection ::
      StopStateOk(k in pendingStops && k !in hole, Get(pending, byConnection[k], map[]), retries[byConnection[k]])
  }

  ghost predicate RetriesOk(conns: map<ConnId, Conn>, retries: multiset<ConnId>) {
    forall c <- retries :: c in conns
  }

  /** Suspended handlers refer to things that exist, and a socket is admitted at most once. */
  ghost predicate FlightsOk(conns: map<ConnId, Conn>, bySocket: map<Socket, ConnId>, admitting: set<Socket>, flights: map<FlightId, Flight>) {
    && (forall f <- flights :: flights[f].HelloFlight? ==> flights[f].socket in admitting && flights[f].socket !in bySocket)
    && (forall f, g | f in flights && g in flights && flights[f].HelloFlight? && flights[g].HelloFlight?
                      && flights[f].socket == flights[g].socket :: f == g)
    && (forall f <- flights :: !flights[f].HelloFlight? ==> flights[f].conn in conns)
  }

  /** The command is the call `job` made it, for the connection captured at submission. */
  ghost predicate CommandOk(conns: map<ConnId, Conn>, jobs: map<JobId, Job>, c: ConnId, cmd: Command) {
    && c in conns && conns[c].key == cmd.key
    && cmd.job.Some? == cmd.taskId.Some?
    && (cmd.job.Some? ==>
          var j := cmd.job.value;
          j in jobs && jobs[j].key == cmd.key && jobs[j].connection == Some(c)
          && cmd.taskId == Some(jobs[j].taskId) && cmd.op == jobs[j].op)
  }

  ghost predicate CallsOk(conns: map<ConnId, Conn>, jobs: map<JobId, Job>, flights: map<FlightId, Flight>, issued: map<CommandId, Sent>) {
    && (forall f <- flights :: flights[f].DispatchFlight? ==>
          CommandOk(conns, jobs, flights[f].conn, flights[f].command) && flights[f].command.op != Stop)
    && (forall id <- issued :: issued[id].resolver.Call? ==>
          && issued[id].conn in conns
          && CommandOk(conns, jobs, issued[id].conn,
                       Command(conns[issued[id].conn].key, issued[id].taskId, issued[id].op, issued[id].resolver.job))
          && issued[id].resolver.bound == issued[id].taskId.Some?)
  }

  /** Each task-bound call is held by exactly the flight or the pending entry its phase names. */
  ghost predicate HoldersOk(flights: map<FlightId, Flight>, issued: map<CommandId, Sent>, timers: map<CommandId, ConnId>,
                            jobs: map<JobId, Job>, phase: map<JobId, Phase>) {
    && phase.Keys == jobs.Keys
    && (forall f <- flights :: flights[f].DispatchFlight? && flights[f].command.job.Some? ==>
          Get(phase, flights[f].command.job.value, Done) == Checking(f))
    && (forall id <- issued :: JobIn(issued[id].resolver).Some? ==>
          Get(phase, JobIn(issued[id].resolver).value, Waiting) == if id in timers then OnWire(id) else Done)
    && (forall j <- phase ::
          match phase[j]
          case Waiting => j in jobs && jobs[j].previous.Some?
          case Running => true
          case Checking(f) => f in flights && flights[f].DispatchFlight? && flights[f].command.job == Some(j)
          case OnWire(id) => id in timers && id in issued && issued[id].resolver == Call(true, Some(j))
          case Done => true)
  }

  /** `a` was submitted before `b` for the same profile. */
  ghost predicate Before(jobs: map<JobId, Job>, a: JobId, b: JobId) {
    a in jobs && b in jobs && a < b && jobs[a].key == jobs[b].key
  }

  /** `commandTails` names the newest call of a profile, and every call chains to its predecessor. */
  ghost predicate ChainOk(jobs: map<JobId, Job>, tails: map<Key, JobId>) {
    && (forall k <- tails :: tails[k] in jobs && jobs[tails[k]].key == k)
    && (forall a <- jobs :: jobs[a].key in tails ==> a <= tails[jobs[a].key])
    && (forall b <- jobs :: jobs[b].previous.Some? ==> Before(jobs, jobs[b].previous.value, b))
    && (forall x: JobId, b: JobId | Before(jobs, x, b) :: jobs[b].previous.Some? ==> x <= jobs[b].previous.value)
  }

  /** Calls for one profile start only after every earlier one is done. */
  ghost predicate LaneOk(jobs: map<JobId, Job>, phase: map<JobId, Phase>, tails: map<Key, JobId>) {
    && (forall a: JobId, b: JobId | Before(jobs, a, b) :: !Get(phase, b, Done).Waiting? ==> Get(phase, a, Done).Done?)
    && (forall a <- jobs :: jobs[a].key !in tails ==> Get(phase, a, Done).Done?)
  }

  function ActiveSet(b: Binding): set<TaskId> {
    if b.activeTaskId.Some? then {b.activeTaskId.value} else {}
  }

  ghost predicate OneBindingOk(b: Binding) {
    && |b.retiredTaskIds - ActiveSet(b)| < RETIRED_LIMIT
    && (b.activeTaskId.None? ==> b.retiredTaskIds == {})
  }

  /** A frame sent under the task binding `b` names the active or a retired task. */
  ghost predicate BoundFrameOk(b: Binding, s: Sent) {
    s.taskId.Some? ==>
      && b.activeTaskId.Some?
      && (b.activeTaskId == s.taskId || s.taskId.value in b.retiredTaskIds)
      && (s.op == Stop ==> s.taskId.value in b.retiredTaskIds)
  }

  ghost predicate BindingOk(binding: map<ConnId, Binding>, issued: map<CommandId, Sent>) {
    && (forall c <- binding :: OneBindingOk(binding[c]))
    && (forall id <- issued :: BoundFrameOk(Get(binding, issued[id].conn, Binding(None, {})), issued[id]))
  }

  /** What sending `earlier` before `later` on one connection with binding `b` implies. */
  ghost predicate InOrder(b: Binding, earlier: Sent, later: Sent) {
    earlier.taskId.Some? ==>
      && later.taskId.Some?
      && (earlier.taskId != later.taskId ==>
            earlier.taskId.value in b.retiredTaskIds && b.activeTaskId != earlier.taskId)
      && (earlier.taskId == later.taskId && earlier.op == Stop ==> later.op == Stop)
  }

  ghost predicate OrderOk(binding: map<ConnId, Binding>, issued: map<CommandId, Sent>) {
    forall a, b | a in issued && b in issued && a < b && issued[a].conn == issued[b].conn
                  && issued[a].resolver.Call? && issued[b].resolver.Call? ::
      InOrder(Get(binding, issued[a].conn, Binding(None, {})), issued[a], issued[b])
  }

  /** `a` and then `b` were sent by `dispatchBoundCommand` on one connection. */
  ghost predicate OnOneConnection(issued: map<CommandId, Sent>, a: CommandId, b: CommandId) {
    && a in issued && b in issued && a < b && issued[a].conn == issued[b].conn
    && issued[a].resolver.Call? && issued[b].resolver.Call?
  }

  /** A task that a connection has left is never sent for again. */
  ghost predicate NoReturnOk(issued: map<CommandId, Sent>) {
    forall a: CommandId, b: CommandId, d: CommandId | OnOneConnection(issued, a, b) && OnOneConnection(issued, b, d) ::
      issued[a].taskId.Some? && issued[d].taskId == issued[a].taskId ==> issued[b].taskId == issued[a].taskId
  }

  ghost predicate SameLane(jobs: map<JobId, Job>, s: Sent, t: Sent) {
    && JobIn(s.resolver).Some? && JobIn(s.resolver).value in jobs
    && JobIn(t.resolver).Some? && JobIn(t.resolver).value in jobs
    && jobs[JobIn(s.resolver).value].key == jobs[JobIn(t.resolver).value].key
  }

  /** Task-bound commands for one profile were sent in the order they were submitted. */
  ghost predicate SubmissionOrderOk(jobs: map<JobId, Job>, issued: map<CommandId, Sent>) {
    forall a, b | a in issued && b in issued && a < b && SameLane(jobs, issued[a], issued[b]) ::
      JobIn(issued[a].resolver).value < JobIn(issued[b].resolver).value
  }

  /** Registries, timers and settlement. */
  ghost predicate CoreOk(r: Relay) {
    && FreshOk(r.conns, r.flights, r.jobs, r.issued, r.next)
    && RegistryOk(r.conns, r.byConnection, r.bySocket, r.closed)
    && TerminalOk(r.byConnection, r.terminalEvent, r.terminalByConnection)
    && PendingOk(r.pending, r.timers)
    && NoStrandedOk(r.conns, r.byConnection, r.timers)
    && FramesOk(r.pending, r.timers, r.issued)
    && SettledOk(r.issued, r.timers, r.settled)
    && RetriesOk(r.conns, r.retries)
    && FlightsOk(r.conns, r.bySocket, r.admitting, r.flights)
  }

  /** Task-bound calls and task bindings. */
  ghost predicate TasksOk(r: Relay) {
    && CallsOk(r.conns, r.jobs, r.flights, r.issued)
    && HoldersOk(r.flights, r.issued, r.timers, r.jobs, r.phase)
    && ChainOk(r.jobs, r.commandTails)
    && LaneOk(r.jobs, r.phase, r.commandTails)
    && BindingOk(r.binding, r.issued)
    && OrderOk(r.binding, r.issued)
    && NoReturnOk(r.issued)
    && SubmissionOrderOk(r.jobs, r.issued)
  }

  /** Between steps no call is executing. */
  ghost predicate QuietOk(phase: map<JobId, Phase>, running: set<JobId>) {
    forall j <- phase :: phase[j].Running? ==> j in running
  }

  /** In the middle of a step: Stops for `hole` are between two attempts, calls in `running` are executing. */
  ghost predicate Mid(r: Relay, hole: set<Key>, running: set<JobId>) {
    && CoreOk(r) && TasksOk(r)
    && StopsOk(r.byConnection, r.pendingStops, hole, r.pending, r.retries)
    && QuietOk(r.phase, running)
  }

  ghost predicate Inv(r: Relay) {
    Mid(r, {}, {})
  }
}
