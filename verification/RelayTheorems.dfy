/** What the relay promises over every run. */
module RelayTheorems {
  import opened Options
  import opened RelayState
  import opened RelayInvariants
  import opened RelayProofs
  import opened RelaySteps

  // ---------------------------------------------------------------- safety in every reachable state

  /** The two registries are inverse to each other, hold no closed socket, and agree with `current`. */
  lemma RegistriesAgree(es: seq<Event>)
    ensures
      var r := Exec(EMPTY, es);
      && (forall k <- r.byConnection ::
            var c := r.byConnection[k];
            c in r.conns && r.conns[c].key == k && Lookup(r.bySocket, r.conns[c].socket) == Some(c))
      && (forall s <- r.bySocket ::
            var c := r.bySocket[s];
            c in r.conns && r.conns[c].socket == s && Lookup(r.byConnection, r.conns[c].key) == Some(c) && s !in r.closed)
      && (forall c <- r.conns :: Current(r, c) <==> IsRegistered(r, c))
      && (forall c <- r.conns :: IsRegistered(r, c) ==>
            Get(r.terminalEvent, c, None) == Lookup(r.terminalByConnection, r.conns[c].key))
  {
    var r := Exec(EMPTY, es);
    ReachableOk(es);
    hide FreshOk, RegistryOk, TerminalOk, PendingOk, NoStrandedOk, FramesOk, SettledOk, RetriesOk, FlightsOk,
         CallsOk, HoldersOk, ChainOk, LaneOk, BindingOk, OrderOk, SubmissionOrderOk, NoReturnOk, StopsOk, QuietOk;
    RegistryFacts(r.conns, r.byConnection, r.bySocket, r.closed, r.terminalEvent, r.terminalByConnection, r);
  }

  lemma RegistryFacts(conns: map<ConnId, Conn>, byConnection: map<Key, ConnId>, bySocket: map<Socket, ConnId>, closed: set<Socket>,
                      terminalEvent: map<ConnId, Option<Terminal>>, table: map<Key, Terminal>, r: Relay)
    requires conns == r.conns && byConnection == r.byConnection && bySocket == r.bySocket && closed == r.closed
    requires RegistryOk(conns, byConnection, bySocket, closed) && TerminalOk(byConnection, terminalEvent, table)
    ensures forall k <- byConnection ::
      byConnection[k] in conns && conns[byConnection[k]].key == k && Lookup(bySocket, conns[byConnection[k]].socket) == Some(byConnection[k])
    ensures forall s <- bySocket ::
      bySocket[s] in conns && conns[bySocket[s]].socket == s && Lookup(byConnection, conns[bySocket[s]].key) == Some(bySocket[s]) && s !in closed
    ensures forall c <- conns :: Current(r, c) <==> Registered(conns, byConnection, c)
    ensures forall c <- conns :: Registered(conns, byConnection, c) ==> Get(terminalEvent, c, None) == Lookup(table, conns[c].key)
  {
  }

  lemma ReachableOk(es: seq<Event>)
    ensures Inv(Exec(EMPTY, es))
  {
    hide Mid;
    EmptyOk();
    ExecKeeps(EMPTY, es);
  }

  /**
   * Every command ever sent has been settled exactly once, or is pending on exactly one
   * connection, which is registered, with its timer armed.  Nothing else was ever settled.
   */
  lemma SettledExactlyOnce(es: seq<Event>)
    ensures
      var r := Exec(EMPTY, es);
      && (forall id <- r.issued ::
            if id in r.timers
            then r.settled[id] == 0 && IsRegistered(r, r.timers[id]) && forall c: ConnId :: id in PendingOf(r, c) <==> c == r.timers[id]
            else r.settled[id] == 1 && forall c: ConnId :: id !in PendingOf(r, c))
      && (forall id <- r.timers :: id in r.issued && r.issued[id].conn == r.timers[id])
      && (forall id <- r.settled :: id in r.issued)
  {
    var r := Exec(EMPTY, es);
    ReachableOk(es);
    hide FreshOk, RegistryOk, TerminalOk, PendingOk, NoStrandedOk, FramesOk, SettledOk, RetriesOk, FlightsOk,
         CallsOk, HoldersOk, ChainOk, LaneOk, BindingOk, OrderOk, SubmissionOrderOk, NoReturnOk, StopsOk, QuietOk;
    SettlementFacts(r.pending, r.timers, r.issued, r.settled, r.conns, r.byConnection);
  }

  lemma SettlementFacts(pending: PendingTable, timers: Timers, issued: map<CommandId, Sent>, settled: multiset<CommandId>,
                        conns: map<ConnId, Conn>, byConnection: map<Key, ConnId>)
    requires PendingOk(pending, timers) && FramesOk(pending, timers, issued) && SettledOk(issued, timers, settled)
    requires NoStrandedOk(conns, byConnection, timers)
    ensures forall id <- issued ::
      if id in timers
      then settled[id] == 0 && Registered(conns, byConnection, timers[id])
        && forall c: ConnId :: id in Get(pending, c, map[]) <==> c == timers[id]
      else settled[id] == 1 && forall c: ConnId :: id !in Get(pending, c, map[])
    ensures forall id <- timers :: id in issued && issued[id].conn == timers[id]
    ensures forall id <- settled :: id in issued
  {
    forall id, c: ConnId | id in Get(pending, c, map[]) ensures id in timers && timers[id] == c {
      assert c in pending && id in pending[c];
    }
  }

  /**
   * Task-bound commands for one profile reach the wire in the order of their `dispatchCommand`
   * calls, each on the connection registered at that call, and only after every earlier one settled.
   */
  lemma BoundCommandsInOrder(es: seq<Event>)
    ensures
      var r := Exec(EMPTY, es);
      && (forall id <- r.issued :: r.issued[id].taskId.Some? ==>
            && JobIn(r.issued[id].resolver).Some? && JobIn(r.issued[id].resolver).value in r.jobs
            && r.jobs[JobIn(r.issued[id].resolver).value].connection == Some(r.issued[id].conn))
      && (forall a, b | a in r.issued && b in r.issued && a < b && SameLane(r.jobs, r.issued[a], r.issued[b]) ::
            JobIn(r.issued[a].resolver).value < JobIn(r.issued[b].resolver).value && a !in r.timers)
  {
    var r := Exec(EMPTY, es);
    ReachableOk(es);
    hide FreshOk, RegistryOk, TerminalOk, PendingOk, NoStrandedOk, FramesOk, SettledOk, RetriesOk, FlightsOk,
         CallsOk, HoldersOk, ChainOk, LaneOk, BindingOk, OrderOk, SubmissionOrderOk, NoReturnOk, StopsOk, QuietOk;
    hide SameLane, JobIn, Exec;
    LaneFacts(r.conns, r.flights, r.issued, r.timers, r.jobs, r.phase, r.commandTails, r.pending);
  }

  lemma LaneFacts(conns: map<ConnId, Conn>, flights: map<FlightId, Flight>, issued: map<CommandId, Sent>, timers: Timers,
                  jobs: map<JobId, Job>, phase: map<JobId, Phase>, tails: map<Key, JobId>, pending: PendingTable)
    requires CallsOk(conns, jobs, flights, issued) && HoldersOk(flights, issued, timers, jobs, phase)
    requires LaneOk(jobs, phase, tails) && SubmissionOrderOk(jobs, issued) && FramesOk(pending, timers, issued)
    ensures forall id <- issued :: issued[id].taskId.Some? ==>
      && JobIn(issued[id].resolver).Some? && JobIn(issued[id].resolver).value in jobs
      && jobs[JobIn(issued[id].resolver).value].connection == Some(issued[id].conn)
    ensures forall a, b | a in issued && b in issued && a < b && SameLane(jobs, issued[a], issued[b]) ::
      JobIn(issued[a].resolver).value < JobIn(issued[b].resolver).value && a !in timers
  {
    forall a, b | a in issued && b in issued && a < b && SameLane(jobs, issued[a], issued[b])
      ensures JobIn(issued[a].resolver).value < JobIn(issued[b].resolver).value && a !in timers
    {
      assert Before(jobs, JobIn(issued[a].resolver).value, JobIn(issued[b].resolver).value);
    }
  }

  /** A queued call waits for an earlier one, for its authority check, or for its armed timer: none is lost. */
  lemma NoCallStranded(es: seq<Event>)
    ensures
      var r := Exec(EMPTY, es);
      forall j <- r.jobs ::
        match PhaseOf(r, j)
        case Waiting => r.jobs[j].previous.Some? && r.jobs[j].previous.value in r.jobs && r.jobs[j].previous.value < j
        case Running => false
        case Checking(f) => f in r.flights && r.flights[f].DispatchFlight? && r.flights[f].command.job == Some(j)
        case OnWire(id) => id in r.timers && id in r.issued && JobIn(r.issued[id].resolver) == Some(j)
        case Done => true
  {
    var r := Exec(EMPTY, es);
    ReachableOk(es);
    hide FreshOk, RegistryOk, TerminalOk, PendingOk, NoStrandedOk, FramesOk, SettledOk, RetriesOk, FlightsOk,
         CallsOk, HoldersOk, ChainOk, LaneOk, BindingOk, OrderOk, SubmissionOrderOk, NoReturnOk, StopsOk, QuietOk;
    StrandedFacts(r.flights, r.issued, r.timers, r.jobs, r.phase, r.commandTails);
  }

  lemma StrandedFacts(flights: map<FlightId, Flight>, issued: map<CommandId, Sent>, timers: Timers,
                      jobs: map<JobId, Job>, phase: map<JobId, Phase>, tails: map<Key, JobId>)
    requires HoldersOk(flights, issued, timers, jobs, phase) && ChainOk(jobs, tails) && QuietOk(phase, {})
    ensures forall j <- jobs ::
      match Get(phase, j, Done)
      case Waiting => jobs[j].previous.Some? && jobs[j].previous.value in jobs && jobs[j].previous.value < j
      case Running => false
      case Checking(f) => f in flights && flights[f].DispatchFlight? && flights[f].command.job == Some(j)
      case OnWire(id) => id in timers && id in issued && JobIn(issued[id].resolver) == Some(j)
      case Done => true
  {
    forall j <- jobs ensures jobs[j].previous.Some? ==> Before(jobs, jobs[j].previous.value, j) {
    }
  }

  /**
   * The task binding of a connection only moves forward: at most 1024 tasks are ever retired, a
   * bound command is never followed by an unbound one, a task once left is never sent for again,
   * and after Stop for a task nothing but Stop is sent for it.
   */
  lemma BindingIsOneWay(es: seq<Event>)
    ensures
      var r := Exec(EMPTY, es);
      && (forall c <- r.binding :: |r.binding[c].retiredTaskIds| <= RETIRED_LIMIT)
      && (forall a, b | OnOneConnection(r.issued, a, b) && r.issued[a].taskId.Some? ::
            && r.issued[b].taskId.Some?
            && (r.issued[b].taskId == r.issued[a].taskId && r.issued[a].op == Stop ==> r.issued[b].op == Stop))
      && (forall a, b, d | OnOneConnection(r.issued, a, b) && OnOneConnection(r.issued, b, d)
                           && r.issued[a].taskId.Some? && r.issued[d].taskId == r.issued[a].taskId ::
            r.issued[b].taskId == r.issued[a].taskId)
  {
    var r := Exec(EMPTY, es);
    ReachableOk(es);
    hide FreshOk, RegistryOk, TerminalOk, PendingOk, NoStrandedOk, FramesOk, SettledOk, RetriesOk, FlightsOk,
         CallsOk, HoldersOk, ChainOk, LaneOk, BindingOk, OrderOk, SubmissionOrderOk, NoReturnOk, StopsOk, QuietOk;
    BindingFacts(r.binding, r.issued);
  }

  lemma BindingFacts(binding: map<ConnId, Binding>, issued: map<CommandId, Sent>)
    requires BindingOk(binding, issued) && OrderOk(binding, issued) && NoReturnOk(issued)
    ensures forall c <- binding :: |binding[c].retiredTaskIds| <= RETIRED_LIMIT
    ensures forall a, b | OnOneConnection(issued, a, b) && issued[a].taskId.Some? ::
      && issued[b].taskId.Some?
      && (issued[b].taskId == issued[a].taskId && issued[a].op == Stop ==> issued[b].op == Stop)
    ensures forall a, b, d | OnOneConnection(issued, a, b) && OnOneConnection(issued, b, d)
                             && issued[a].taskId.Some? && issued[d].taskId == issued[a].taskId ::
      issued[b].taskId == issued[a].taskId
  {
    forall c <- binding ensures |binding[c].retiredTaskIds| <= RETIRED_LIMIT {
      OneBindingSize(binding[c]);
    }
    forall a, b | OnOneConnection(issued, a, b)
      ensures InOrder(Get(binding, issued[a].conn, Binding(None, {})), issued[a], issued[b])
    {
    }
  }

  lemma OneBindingSize(b: Binding)
    requires OneBindingOk(b)
    ensures |b.retiredTaskIds| <= RETIRED_LIMIT
  {
    assert b.retiredTaskIds <= (b.retiredTaskIds - ActiveSet(b)) + ActiveSet(b);
    Subset(b.retiredTaskIds, (b.retiredTaskIds - ActiveSet(b)) + ActiveSet(b));
  }

  lemma Subset(a: set<TaskId>, b: set<TaskId>)
    requires a <= b
    ensures |a| <= |b|
  {
    assert b == a + (b - a);
  }

  lemma {:induction false} ExecAppend(r: Relay, es: seq<Event>, e: Event)
    ensures Exec(r, es + [e]) == Step(Exec(r, es), e)
    decreases |es|
  {
    hide Step;
    if es == [] {
      assert es + [e] == [e] && [e][1..] == [];
    } else {
      assert (es + [e])[1..] == es[1..] + [e];
      ExecAppend(Step(r, es[0]), es[1..], e);
    }
  }
}
