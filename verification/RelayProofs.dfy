/**
 * Every step keeps the relay's invariants.
 *
 * The lemmas of the first part are about one or two tables.  The second part takes them to the
 * whole state, one building block of a step at a time; there the predicates stay hidden, so that
 * what a block does not touch is unchanged by name alone.
 */
module RelayProofs {
  import opened Options
  import opened RelayState
  import opened RelayInvariants

  type PendingTable = map<ConnId, map<CommandId, Pending>>
  type Timers = map<CommandId, ConnId>

  // ---------------------------------------------------------------- rejectPending

  lemma RejectTimers(pending: PendingTable, timers: Timers, c: ConnId)
    requires PendingOk(pending, timers)
    ensures PendingOk(pending[c := map[]], timers - Get(pending, c, map[]).Keys)
  {
    assert forall id <- Get(pending, c, map[]) :: timers[id] == c;
  }

  lemma RejectFrames(pending: PendingTable, timers: Timers, issued: map<CommandId, Sent>, c: ConnId)
    requires PendingOk(pending, timers) && FramesOk(pending, timers, issued)
    ensures FramesOk(pending[c := map[]], timers - Get(pending, c, map[]).Keys, issued)
  {
  }

  lemma RejectSettled(pending: PendingTable, timers: Timers, issued: map<CommandId, Sent>, settled: multiset<CommandId>, c: ConnId)
    requires PendingOk(pending, timers) && FramesOk(pending, timers, issued) && SettledOk(issued, timers, settled)
    ensures SettledOk(issued, timers - Get(pending, c, map[]).Keys, settled + multiset(Get(pending, c, map[]).Keys))
  {
    var p := Get(pending, c, map[]);
    forall id ensures (settled + multiset(p.Keys))[id] == if id in issued && id !in timers - p.Keys then 1 else 0 {
      if id in p {
        assert timers[id] == c;
      }
    }
  }

  lemma RejectHolders(pending: PendingTable, timers: Timers, flights: map<FlightId, Flight>, issued: map<CommandId, Sent>,
                      jobs: map<JobId, Job>, phase: map<JobId, Phase>, c: ConnId)
    requires PendingOk(pending, timers) && FramesOk(pending, timers, issued) && HoldersOk(flights, issued, timers, jobs, phase)
    ensures HoldersOk(flights, issued, timers - Get(pending, c, map[]).Keys, jobs, FinishAll(phase, JobsOf(Get(pending, c, map[]))))
    ensures phase.Keys == jobs.Keys
    ensures forall j <- JobsOf(Get(pending, c, map[])) :: j in phase && phase[j].OnWire?
  {
    var p := Get(pending, c, map[]);
    forall id | id in p && JobIn(p[id].resolver).Some?
      ensures Get(phase, JobIn(p[id].resolver).value, Waiting) == OnWire(id)
    {
      assert timers[id] == c;
    }
  }

  lemma FinishLane(jobs: map<JobId, Job>, phase: map<JobId, Phase>, tails: map<Key, JobId>, done: set<JobId>, running: set<JobId>)
    requires LaneOk(jobs, phase, tails) && phase.Keys == jobs.Keys && QuietOk(phase, running)
    requires forall j <- done :: j in phase && !phase[j].Waiting?
    ensures LaneOk(jobs, FinishAll(phase, done), tails) && QuietOk(FinishAll(phase, done), running)
  {
  }

  lemma RejectStops(byConnection: map<Key, ConnId>, pendingStops: set<Key>, hole: set<Key>,
                    pending: PendingTable, retries: multiset<ConnId>, c: ConnId)
    requires StopsOk(byConnection, pendingStops, hole, pending, retries)
    ensures StopsOk(byConnection, pendingStops, hole, pending[c := map[]],
                    retries[c := retries[c] + |DeliveriesOf(Get(pending, c, map[]))|])
  {
    assert DeliveriesOf(map[]) == {};
  }

  lemma FewerTimers(conns: map<ConnId, Conn>, byConnection: map<Key, ConnId>, timers: Timers, gone: set<CommandId>)
    requires NoStrandedOk(conns, byConnection, timers)
    ensures NoStrandedOk(conns, byConnection, timers - gone)
  {
  }

  lemma MoreRetries(conns: map<ConnId, Conn>, retries: multiset<ConnId>, c: ConnId, n: nat)
    requires RetriesOk(conns, retries) && c in conns
    ensures RetriesOk(conns, retries[c := n])
  {
  }

  /** The tables of registration, calls and frames are untouched, and the others change one by one. */
  lemma RejectLeaves(r: Relay, c: ConnId)
    ensures
      var q, p := RejectPending(r, c), PendingOf(r, c);
      && q.conns == r.conns && q.flights == r.flights && q.jobs == r.jobs && q.issued == r.issued && q.next == r.next
      && q.byConnection == r.byConnection && q.bySocket == r.bySocket && q.closed == r.closed && q.admitting == r.admitting
      && q.terminalEvent == r.terminalEvent && q.terminalByConnection == r.terminalByConnection
      && q.pending == r.pending[c := map[]] && q.timers == r.timers - p.Keys && q.settled == r.settled + multiset(p.Keys)
      && q.retries == r.retries[c := r.retries[c] + |DeliveriesOf(p)|]
  {
    hide FinishAll, JobsOf, DeliveriesOf;
  }

  lemma RejectPendingCore(r: Relay, c: ConnId)
    requires CoreOk(r) && c in r.conns
    ensures CoreOk(RejectPending(r, c))
  {
    hide FreshOk, RegistryOk, TerminalOk, PendingOk, NoStrandedOk, FramesOk, SettledOk, RetriesOk, FlightsOk,
         CallsOk, HoldersOk, ChainOk, LaneOk, BindingOk, OrderOk, SubmissionOrderOk, NoReturnOk, StopsOk, QuietOk;
    hide FinishAll, JobsOf, DeliveriesOf;
    RejectLeaves(r, c);
    var p := PendingOf(r, c);
    hide RejectPending;
    RejectTimers(r.pending, r.timers, c);
    RejectFrames(r.pending, r.timers, r.issued, c);
    RejectSettled(r.pending, r.timers, r.issued, r.settled, c);
    FewerTimers(r.conns, r.byConnection, r.timers, p.Keys);
    MoreRetries(r.conns, r.retries, c, r.retries[c] + |DeliveriesOf(p)|);
  }

  lemma RejectPendingTasks(r: Relay, c: ConnId, running: set<JobId>)
    requires PendingOk(r.pending, r.timers) && FramesOk(r.pending, r.timers, r.issued) && TasksOk(r) && QuietOk(r.phase, running)
    ensures TasksOk(RejectPending(r, c)) && QuietOk(RejectPending(r, c).phase, running)
  {
    hide FreshOk, RegistryOk, TerminalOk, PendingOk, NoStrandedOk, FramesOk, SettledOk, RetriesOk, FlightsOk,
         CallsOk, HoldersOk, ChainOk, LaneOk, BindingOk, OrderOk, SubmissionOrderOk, NoReturnOk, StopsOk, QuietOk;
    RejectHolders(r.pending, r.timers, r.flights, r.issued, r.jobs, r.phase, c);
    FinishLane(r.jobs, r.phase, r.commandTails, JobsOf(PendingOf(r, c)), running);
  }

  lemma RejectPendingKeeps(r: Relay, c: ConnId, hole: set<Key>, running: set<JobId>)
    requires Mid(r, hole, running) && c in r.conns
    ensures Mid(RejectPending(r, c), hole, running)
  {
    hide FreshOk, RegistryOk, TerminalOk, PendingOk, NoStrandedOk, FramesOk, SettledOk, RetriesOk, FlightsOk,
         CallsOk, HoldersOk, ChainOk, LaneOk, BindingOk, OrderOk, SubmissionOrderOk, NoReturnOk, StopsOk, QuietOk;
    RejectPendingCore(r, c);
    RejectPendingTasks(r, c, running);
    RejectStops(r.byConnection, r.pendingStops, hole, r.pending, r.retries, c);
  }

  // ---------------------------------------------------------------- handleDisconnect

  lemma UnregisterRegistry(r: Relay, s: Socket)
    requires RegistryOk(r.conns, r.byConnection, r.bySocket, r.closed)
    ensures
      var q := Unregister(r, s);
      && RegistryOk(q.conns, q.byConnection, q.bySocket, q.closed)
      && s !in q.bySocket && s in q.closed && q.bySocket == r.bySocket - {s}
      && q.byConnection == if s in r.bySocket then r.byConnection - {r.conns[r.bySocket[s]].key} else r.byConnection
  {
    if s in r.bySocket {
      RegistryWithout(r.conns, r.byConnection, r.bySocket, r.closed, s);
    } else {
      assert r.bySocket - {s} == r.bySocket;
    }
  }

  lemma RegistryWithout(conns: map<ConnId, Conn>, byConnection: map<Key, ConnId>, bySocket: map<Socket, ConnId>, closed: set<Socket>, s: Socket)
    requires RegistryOk(conns, byConnection, bySocket, closed) && s in bySocket
    ensures RegistryOk(conns, byConnection - {conns[bySocket[s]].key}, bySocket - {s}, closed + {s})
  {
  }

  lemma FewerConnections(r: Relay, k: Key, hole: set<Key>)
    requires RegistryOk(r.conns, r.byConnection, r.bySocket, r.closed) && TerminalOk(r.byConnection, r.terminalEvent, r.terminalByConnection)
    requires PendingOk(r.pending, r.timers) && NoStrandedOk(r.conns, r.byConnection, r.timers)
    requires StopsOk(r.byConnection, r.pendingStops, hole, r.pending, r.retries)
    requires k in r.byConnection ==> PendingOf(r, r.byConnection[k]) == map[]
    ensures TerminalOk(r.byConnection - {k}, r.terminalEvent, r.terminalByConnection)
    ensures NoStrandedOk(r.conns, r.byConnection - {k}, r.timers)
    ensures StopsOk(r.byConnection - {k}, r.pendingStops, hole, r.pending, r.retries)
  {
    FewerTerminals(r.byConnection, r.terminalEvent, r.terminalByConnection, k);
    FewerStops(r.byConnection, r.pendingStops, hole, r.pending, r.retries, k);
    hide RegistryOk, TerminalOk, StopsOk, PendingOk, NoStrandedOk;
    NoneStranded(r.conns, r.byConnection, r.pending, r.timers, k);
  }

  lemma NoneStranded(conns: map<ConnId, Conn>, byConnection: map<Key, ConnId>, pending: PendingTable, timers: Timers, k: Key)
    requires PendingOk(pending, timers) && NoStrandedOk(conns, byConnection, timers)
    requires k in byConnection ==> Get(pending, byConnection[k], map[]) == map[]
    ensures NoStrandedOk(conns, byConnection - {k}, timers)
  {
    forall id | id in timers ensures Registered(conns, byConnection - {k}, timers[id]) {
      assert id in Get(pending, timers[id], map[]);
      assert Registered(conns, byConnection, timers[id]);
    }
  }

  lemma FewerTerminals(byConnection: map<Key, ConnId>, terminalEvent: map<ConnId, Option<Terminal>>,
                       terminalByConnection: map<Key, Terminal>, k: Key)
    requires TerminalOk(byConnection, terminalEvent, terminalByConnection)
    ensures TerminalOk(byConnection - {k}, terminalEvent, terminalByConnection)
  {
  }

  lemma FewerStops(byConnection: map<Key, ConnId>, pendingStops: set<Key>, hole: set<Key>, pending: PendingTable,
                   retries: multiset<ConnId>, k: Key)
    requires StopsOk(byConnection, pendingStops, hole, pending, retries)
    ensures StopsOk(byConnection - {k}, pendingStops, hole, pending, retries)
  {
    hide StopStateOk;
  }

  lemma FewerSockets(conns: map<ConnId, Conn>, bySocket: map<Socket, ConnId>, admitting: set<Socket>, flights: map<FlightId, Flight>, s: Socket)
    requires FlightsOk(conns, bySocket, admitting, flights)
    ensures FlightsOk(conns, bySocket - {s}, admitting, flights)
  {
  }

  lemma KnownReceiver(r: Relay, s: Socket)
    requires RegistryOk(r.conns, r.byConnection, r.bySocket, r.closed) && s in r.bySocket
    ensures
      var c := r.bySocket[s];
      c in r.conns && r.conns[c].socket == s && r.conns[c].key in r.byConnection && r.byConnection[r.conns[c].key] == c
  {
  }

  lemma UnregisterKeeps(r: Relay, s: Socket, hole: set<Key>, running: set<JobId>)
    requires Mid(r, hole, running)
    requires s in r.bySocket ==> PendingOf(r, r.bySocket[s]) == map[]
    ensures Mid(Unregister(r, s), hole, running)
  {
    hide FreshOk, RegistryOk, TerminalOk, PendingOk, NoStrandedOk, FramesOk, SettledOk, RetriesOk, FlightsOk,
         CallsOk, HoldersOk, ChainOk, LaneOk, BindingOk, OrderOk, SubmissionOrderOk, NoReturnOk, StopsOk, QuietOk;
    UnregisterRegistry(r, s);
    FewerSockets(r.conns, r.bySocket, r.admitting, r.flights, s);
    if s in r.bySocket {
      KnownReceiver(r, s);
      FewerConnections(r, r.conns[r.bySocket[s]].key, hole);
    }
  }

  lemma DisconnectKeeps(r: Relay, s: Socket, hole: set<Key>, running: set<JobId>)
    requires Mid(r, hole, running)
    ensures
      var q := Disconnect(r, s);
      && Mid(q, hole, running)
      && q.bySocket == r.bySocket - {s} && s in q.closed
      && (s in r.bySocket ==> r.bySocket[s] in r.conns)
      && q.byConnection == if s in r.bySocket then r.byConnection - {r.conns[r.bySocket[s]].key} else r.byConnection
  {
    assert RegistryOk(r.conns, r.byConnection, r.bySocket, r.closed);
    if s in r.bySocket { RejectLeaves(r, r.bySocket[s]); }
    hide RejectPending, Unregister;
    hide FreshOk, RegistryOk, TerminalOk, PendingOk, NoStrandedOk, FramesOk, SettledOk, RetriesOk, FlightsOk,
         CallsOk, HoldersOk, ChainOk, LaneOk, BindingOk, OrderOk, SubmissionOrderOk, NoReturnOk, StopsOk, QuietOk;
    if s in r.bySocket {
      KnownReceiver(r, s);
      RejectPendingKeeps(r, r.bySocket[s], hole, running);
      UnregisterRegistry(RejectPending(r, r.bySocket[s]), s);
      UnregisterKeeps(RejectPending(r, r.bySocket[s]), s, hole, running);
    } else {
      UnregisterRegistry(r, s);
      UnregisterKeeps(r, s, hole, running);
    }
  }

  // ---------------------------------------------------------------- a new connection

  lemma RegisterRegistry(conns: map<ConnId, Conn>, byConnection: map<Key, ConnId>, bySocket: map<Socket, ConnId>, closed: set<Socket>,
                         s: Socket, k: Key, fillAllowed: bool, c: ConnId)
    requires RegistryOk(conns, byConnection, bySocket, closed)
    requires s !in bySocket && s !in closed && k !in byConnection && c !in conns
    ensures RegistryOk(conns[c := Conn(k, s, fillAllowed)], byConnection[k := c], bySocket[s := c], closed)
  {
  }

  lemma RegisterCore(r: Relay, s: Socket, k: Key, fillAllowed: bool, now: int)
    requires CoreOk(r) && s !in r.bySocket && s !in r.closed && k !in r.byConnection
    requires forall f <- r.flights :: r.flights[f].HelloFlight? ==> r.flights[f].socket != s
    ensures CoreOk(Register(r, s, k, fillAllowed, now))
  {
    hide FreshOk, RegistryOk, TerminalOk, PendingOk, NoStrandedOk, FramesOk, SettledOk, RetriesOk, FlightsOk,
         CallsOk, HoldersOk, ChainOk, LaneOk, BindingOk, OrderOk, SubmissionOrderOk, NoReturnOk, StopsOk, QuietOk;
    var c := r.next;
    RegisterFresh(r.conns, r.flights, r.jobs, r.issued, r.next, Conn(k, s, fillAllowed));
    RegisterRegistry(r.conns, r.byConnection, r.bySocket, r.closed, s, k, fillAllowed, c);
    RegisterTerminal(r.conns, r.byConnection, r.bySocket, r.closed, r.terminalEvent, r.terminalByConnection, k, c);
    RegisterPending(r.conns, r.byConnection, r.pending, r.timers, r.issued, Conn(k, s, fillAllowed), c);
    RegisterFlights(r.conns, r.bySocket, r.admitting, r.flights, s, Conn(k, s, fillAllowed), c);
    MoreConns(r.conns, r.retries, c, Conn(k, s, fillAllowed));
  }

  lemma MoreConns(conns: map<ConnId, Conn>, retries: multiset<ConnId>, c: ConnId, conn: Conn)
    requires RetriesOk(conns, retries)
    ensures RetriesOk(conns[c := conn], retries)
  {
  }

  lemma RegisterFresh(conns: map<ConnId, Conn>, flights: map<FlightId, Flight>, jobs: map<JobId, Job>, issued: map<CommandId, Sent>, next: nat, conn: Conn)
    requires FreshOk(conns, flights, jobs, issued, next)
    ensures FreshOk(conns[next := conn], flights, jobs, issued, next + 1) && next !in conns
  {
  }

  lemma RegisterTerminal(conns: map<ConnId, Conn>, byConnection: map<Key, ConnId>, bySocket: map<Socket, ConnId>, closed: set<Socket>,
                         terminalEvent: map<ConnId, Option<Terminal>>, table: map<Key, Terminal>, k: Key, c: ConnId)
    requires RegistryOk(conns, byConnection, bySocket, closed) && TerminalOk(byConnection, terminalEvent, table) && c !in conns
    ensures TerminalOk(byConnection[k := c], terminalEvent[c := Lookup(table, k)], table)
  {
  }

  lemma RegisterPending(conns: map<ConnId, Conn>, byConnection: map<Key, ConnId>, pending: PendingTable, timers: Timers,
                        issued: map<CommandId, Sent>, conn: Conn, c: ConnId)
    requires PendingOk(pending, timers) && NoStrandedOk(conns, byConnection, timers) && FramesOk(pending, timers, issued)
    requires c !in conns && conn.key !in byConnection
    ensures PendingOk(pending[c := map[]], timers) && FramesOk(pending[c := map[]], timers, issued)
    ensures NoStrandedOk(conns[c := conn], byConnection[conn.key := c], timers)
  {
  }

  lemma RegisterFlights(conns: map<ConnId, Conn>, bySocket: map<Socket, ConnId>, admitting: set<Socket>, flights: map<FlightId, Flight>,
                        s: Socket, conn: Conn, c: ConnId)
    requires FlightsOk(conns, bySocket, admitting, flights)
    requires forall f <- flights :: flights[f].HelloFlight? ==> flights[f].socket != s
    ensures FlightsOk(conns[c := conn], bySocket[s := c], admitting, flights)
  {
  }

  lemma RegisterTasks(r: Relay, s: Socket, k: Key, fillAllowed: bool, now: int)
    requires FreshOk(r.conns, r.flights, r.jobs, r.issued, r.next) && TasksOk(r)
    ensures TasksOk(Register(r, s, k, fillAllowed, now))
  {
    var c := r.next;
    RegisterCalls(r.conns, r.jobs, r.flights, r.issued, Conn(k, s, fillAllowed), c);
    RegisterBinding(r.conns, r.binding, r.issued, c);
    hide FreshOk, RegistryOk, TerminalOk, PendingOk, NoStrandedOk, FramesOk, SettledOk, RetriesOk, FlightsOk,
         CallsOk, HoldersOk, ChainOk, LaneOk, BindingOk, OrderOk, SubmissionOrderOk, NoReturnOk, StopsOk, QuietOk;
    assert TasksOk(Register(r, s, k, fillAllowed, now));
  }

  lemma RegisterCalls(conns: map<ConnId, Conn>, jobs: map<JobId, Job>, flights: map<FlightId, Flight>, issued: map<CommandId, Sent>, conn: Conn, c: ConnId)
    requires CallsOk(conns, jobs, flights, issued) && c !in conns
    ensures CallsOk(conns[c := conn], jobs, flights, issued)
  {
  }

  lemma RegisterBinding(conns: map<ConnId, Conn>, binding: map<ConnId, Binding>, issued: map<CommandId, Sent>, c: ConnId)
    requires forall id <- issued :: issued[id].conn in conns
    requires c !in conns && BindingOk(binding, issued) && OrderOk(binding, issued)
    ensures BindingOk(binding[c := Binding(None, {})], issued) && OrderOk(binding[c := Binding(None, {})], issued)
  {
    FreshBinding();
    SetBindingTable(binding, issued, c, Binding(None, {}));
  }

  lemma FreshBinding()
    ensures OneBindingOk(Binding(None, {}))
  {
    var b := Binding(None, {});
    assert b.retiredTaskIds - ActiveSet(b) == {};
  }

  lemma SetBindingTable(binding: map<ConnId, Binding>, issued: map<CommandId, Sent>, c: ConnId, b: Binding)
    requires BindingOk(binding, issued) && OrderOk(binding, issued) && OneBindingOk(b)
    requires forall id <- issued :: issued[id].conn == c ==> BoundFrameOk(b, issued[id])
    requires forall x, y | x in issued && y in issued && x < y && issued[x].conn == c && issued[y].conn == c
                           && issued[x].resolver.Call? && issued[y].resolver.Call? :: InOrder(b, issued[x], issued[y])
    ensures BindingOk(binding[c := b], issued) && OrderOk(binding[c := b], issued)
  {
    hide OneBindingOk, BoundFrameOk, InOrder;
  }

  lemma RegisterStops(conns: map<ConnId, Conn>, byConnection: map<Key, ConnId>, bySocket: map<Socket, ConnId>, closed: set<Socket>,
                      pendingStops: set<Key>, hole: set<Key>, pending: PendingTable, retries: multiset<ConnId>, k: Key, c: ConnId)
    requires RegistryOk(conns, byConnection, bySocket, closed) && RetriesOk(conns, retries)
    requires StopsOk(byConnection, pendingStops, hole, pending, retries) && c !in conns && k !in byConnection
    ensures StopsOk(byConnection[k := c], pendingStops, hole + {k}, pending[c := map[]], retries)
  {
    assert DeliveriesOf(map[]) == {};
  }

  lemma RegisterKeeps(r: Relay, s: Socket, k: Key, fillAllowed: bool, now: int, hole: set<Key>, running: set<JobId>)
    requires Mid(r, hole, running) && s !in r.bySocket && s !in r.closed && k !in r.byConnection
    requires forall f <- r.flights :: r.flights[f].HelloFlight? ==> r.flights[f].socket != s
    ensures Mid(Register(r, s, k, fillAllowed, now), hole + {k}, running)
  {
    hide FreshOk, RegistryOk, TerminalOk, PendingOk, NoStrandedOk, FramesOk, SettledOk, RetriesOk, FlightsOk,
         CallsOk, HoldersOk, ChainOk, LaneOk, BindingOk, OrderOk, SubmissionOrderOk, NoReturnOk, StopsOk, QuietOk;
    RegisterCore(r, s, k, fillAllowed, now);
    RegisterTasks(r, s, k, fillAllowed, now);
    RegisterFresh(r.conns, r.flights, r.jobs, r.issued, r.next, Conn(k, s, fillAllowed));
    RegisterStops(r.conns, r.byConnection, r.bySocket, r.closed, r.pendingStops, hole, r.pending, r.retries, k, r.next);
  }

  // ---------------------------------------------------------------- terminal events

  lemma SetTerminalTable(conns: map<ConnId, Conn>, byConnection: map<Key, ConnId>, bySocket: map<Socket, ConnId>, closed: set<Socket>,
                         terminalEvent: map<ConnId, Option<Terminal>>, table: map<Key, Terminal>, k: Key, event: Option<Terminal>)
    requires RegistryOk(conns, byConnection, bySocket, closed) && TerminalOk(byConnection, terminalEvent, table) && k in byConnection
    ensures TerminalOk(byConnection, terminalEvent[byConnection[k] := event],
                       match event case Some(e) => table[k := e] case None => table - {k})
  {
  }

  lemma SetTerminalKeeps(r: Relay, c: ConnId, k: Key, event: Option<Terminal>, hole: set<Key>, running: set<JobId>)
    requires Mid(r, hole, running) && Lookup(r.byConnection, k) == Some(c)
    ensures Mid(SetTerminal(r, c, k, event), hole, running)
  {
    hide FreshOk, RegistryOk, TerminalOk, PendingOk, NoStrandedOk, FramesOk, SettledOk, RetriesOk, FlightsOk,
         CallsOk, HoldersOk, ChainOk, LaneOk, BindingOk, OrderOk, SubmissionOrderOk, NoReturnOk, StopsOk, QuietOk;
    SetTerminalTable(r.conns, r.byConnection, r.bySocket, r.closed, r.terminalEvent, r.terminalByConnection, k, event);
  }

  lemma QueueStopKeeps(r: Relay, k: Key, hole: set<Key>, running: set<JobId>)
    requires Mid(r, hole, running) && k !in r.byConnection
    ensures Mid(QueueStop(r, k), hole, running)
  {
    hide FreshOk, RegistryOk, TerminalOk, PendingOk, NoStrandedOk, FramesOk, SettledOk, RetriesOk, FlightsOk,
         CallsOk, HoldersOk, ChainOk, LaneOk, BindingOk, OrderOk, SubmissionOrderOk, NoReturnOk, StopsOk, QuietOk;
    QueueStopTables(r.byConnection, r.terminalEvent, r.terminalByConnection, r.pendingStops, hole, r.pending, r.retries, k);
  }

  lemma QueueStopTables(byConnection: map<Key, ConnId>, terminalEvent: map<ConnId, Option<Terminal>>, table: map<Key, Terminal>,
                        pendingStops: set<Key>, hole: set<Key>, pending: PendingTable, retries: multiset<ConnId>, k: Key)
    requires TerminalOk(byConnection, terminalEvent, table) && k !in byConnection
    requires StopsOk(byConnection, pendingStops, hole, pending, retries)
    ensures TerminalOk(byConnection, terminalEvent, table[k := Stopped])
    ensures StopsOk(byConnection, pendingStops + {k}, hole, pending, retries)
  {
    hide StopStateOk;
  }

  // ---------------------------------------------------------------- sending

  lemma IssuePending(pending: PendingTable, timers: Timers, issued: map<CommandId, Sent>, c: ConnId, id: CommandId, p: Pending, s: Sent)
    requires PendingOk(pending, timers) && FramesOk(pending, timers, issued) && id !in issued
    requires s.conn == c && s.op == p.op && s.resolver == p.resolver
    requires p.resolver.Delivery? ==> s.op == Stop && s.taskId.None?
    ensures PendingOk(pending[c := Get(pending, c, map[])[id := p]], timers[id := c])
    ensures FramesOk(pending[c := Get(pending, c, map[])[id := p]], timers[id := c], issued[id := s])
  {
    assert id !in timers;
  }

  lemma IssueSettled(issued: map<CommandId, Sent>, timers: Timers, settled: multiset<CommandId>, id: CommandId, c: ConnId, s: Sent)
    requires SettledOk(issued, timers, settled) && id !in issued
    ensures SettledOk(issued[id := s], timers[id := c], settled)
  {
  }

  lemma IssueFresh(conns: map<ConnId, Conn>, flights: map<FlightId, Flight>, jobs: map<JobId, Job>, issued: map<CommandId, Sent>, next: nat, s: Sent)
    requires FreshOk(conns, flights, jobs, issued, next) && s.conn in conns
    ensures FreshOk(conns, flights, jobs, issued[next := s], next + 1) && next !in issued && next !in flights && next !in jobs
  {
  }

  lemma MoreTimers(conns: map<ConnId, Conn>, byConnection: map<Key, ConnId>, timers: Timers, id: CommandId, c: ConnId)
    requires NoStrandedOk(conns, byConnection, timers) && Registered(conns, byConnection, c)
    ensures NoStrandedOk(conns, byConnection, timers[id := c])
  {
  }

  lemma IssueCore(r: Relay, c: ConnId, op: Op, taskId: Option<TaskId>, epoch: Option<nat>, resolver: Resolver)
    requires CoreOk(r) && IsRegistered(r, c)
    requires resolver.Delivery? ==> op == Stop && taskId.None?
    ensures CoreOk(Issue(r, c, op, taskId, epoch, resolver))
  {
    hide FreshOk, RegistryOk, TerminalOk, PendingOk, NoStrandedOk, FramesOk, SettledOk, RetriesOk, FlightsOk,
         CallsOk, HoldersOk, ChainOk, LaneOk, BindingOk, OrderOk, SubmissionOrderOk, NoReturnOk, StopsOk, QuietOk;
    var s := Sent(c, op, taskId, epoch, resolver);
    IssueFresh(r.conns, r.flights, r.jobs, r.issued, r.next, s);
    IssuePending(r.pending, r.timers, r.issued, c, r.next, Pending(op, resolver), s);
    IssueSettled(r.issued, r.timers, r.settled, r.next, c, s);
    MoreTimers(r.conns, r.byConnection, r.timers, r.next, c);
  }

  lemma IssueCalls(conns: map<ConnId, Conn>, jobs: map<JobId, Job>, flights: map<FlightId, Flight>, issued: map<CommandId, Sent>,
                   id: CommandId, s: Sent)
    requires CallsOk(conns, jobs, flights, issued) && s.conn in conns
    requires s.resolver.Call? ==>
      && CommandOk(conns, jobs, s.conn, Command(conns[s.conn].key, s.taskId, s.op, s.resolver.job))
      && s.resolver.bound == s.taskId.Some?
    ensures CallsOk(conns, jobs, flights, issued[id := s])
  {
    hide CommandOk;
  }

  lemma IssueHolders(flights: map<FlightId, Flight>, issued: map<CommandId, Sent>, timers: Timers,
                     jobs: map<JobId, Job>, phase: map<JobId, Phase>, id: CommandId, c: ConnId, s: Sent)
    requires HoldersOk(flights, issued, timers, jobs, phase) && id !in issued && id !in timers
    requires IsRunning(phase, JobIn(s.resolver)) && (JobIn(s.resolver).Some? ==> s.resolver.bound)
    ensures HoldersOk(flights, issued[id := s], timers[id := c], jobs, WithPhase(phase, JobIn(s.resolver), OnWire(id)))
    ensures phase.Keys == jobs.Keys
  {
  }

  lemma ProceedLane(jobs: map<JobId, Job>, phase: map<JobId, Phase>, tails: map<Key, JobId>, running: set<JobId>, job: Option<JobId>, next: Phase)
    requires LaneOk(jobs, phase, tails) && QuietOk(phase, running) && IsRunning(phase, job)
    requires !next.Waiting? && !next.Running?
    ensures LaneOk(jobs, WithPhase(phase, job, next), tails) && QuietOk(WithPhase(phase, job, next), Without(running, job))
  {
  }

  ghost predicate IsRunning(phase: map<JobId, Phase>, job: Option<JobId>) {
    job.Some? ==> Get(phase, job.value, Waiting).Running?
  }

  function Without(running: set<JobId>, job: Option<JobId>): set<JobId> {
    if job.Some? then running - {job.value} else running
  }

  /** What the task binding must say before `s` may be sent. */
  ghost predicate MaySend(b: Binding, issued: map<CommandId, Sent>, s: Sent) {
    && BoundFrameOk(b, s)
    && (s.taskId.Some? ==> s.taskId == b.activeTaskId)
    && (s.resolver.Call? ==>
          forall x <- issued :: issued[x].conn == s.conn && issued[x].resolver.Call? ==> InOrder(b, issued[x], s))
  }

  lemma IssueBinding(binding: map<ConnId, Binding>, issued: map<CommandId, Sent>, id: CommandId, s: Sent)
    requires BindingOk(binding, issued) && OrderOk(binding, issued)
    requires forall x <- issued :: x < id
    requires MaySend(Get(binding, s.conn, Binding(None, {})), issued, s)
    ensures BindingOk(binding, issued[id := s]) && OrderOk(binding, issued[id := s])
  {
    hide OneBindingOk, BoundFrameOk, InOrder;
  }

  lemma IssueNoReturn(binding: map<ConnId, Binding>, issued: map<CommandId, Sent>, id: CommandId, s: Sent)
    requires OrderOk(binding, issued) && NoReturnOk(issued)
    requires forall x <- issued :: x < id
    requires MaySend(Get(binding, s.conn, Binding(None, {})), issued, s)
    ensures NoReturnOk(issued[id := s])
  {
    hide OrderOk, MaySend;
    var now := issued[id := s];
    forall a: CommandId, b: CommandId, d: CommandId | OnOneConnection(now, a, b) && OnOneConnection(now, b, d)
      ensures now[a].taskId.Some? && now[d].taskId == now[a].taskId ==> now[b].taskId == now[a].taskId
    {
      assert a in issued && b in issued;
      if d != id {
        assert OnOneConnection(issued, a, b) && OnOneConnection(issued, b, d);
      } else {
        ReturnsNow(binding, issued, a, b, s);
      }
    }
  }

  /** The frame sent last does not return to a task that its connection has left. */
  lemma ReturnsNow(binding: map<ConnId, Binding>, issued: map<CommandId, Sent>, a: CommandId, b: CommandId, s: Sent)
    requires OrderOk(binding, issued) && OnOneConnection(issued, a, b)
    requires issued[b].conn == s.conn && s.resolver.Call?
    requires MaySend(Get(binding, s.conn, Binding(None, {})), issued, s)
    ensures issued[a].taskId.Some? && s.taskId == issued[a].taskId ==> issued[b].taskId == issued[a].taskId
  {
    assert InOrder(Get(binding, issued[a].conn, Binding(None, {})), issued[a], issued[b]);
  }

  lemma IssueSubmissionOrder(flights: map<FlightId, Flight>, issued: map<CommandId, Sent>, timers: Timers,
                             jobs: map<JobId, Job>, phase: map<JobId, Phase>, tails: map<Key, JobId>, id: CommandId, s: Sent)
    requires SubmissionOrderOk(jobs, issued) && LaneOk(jobs, phase, tails) && HoldersOk(flights, issued, timers, jobs, phase)
    requires forall x <- issued :: x < id
    requires IsRunning(phase, JobIn(s.resolver))
    ensures SubmissionOrderOk(jobs, issued[id := s])
  {
    forall a | a in issued && SameLane(jobs, issued[a], s)
      ensures JobIn(issued[a].resolver).value < JobIn(s.resolver).value
    {
      var x, y := JobIn(issued[a].resolver).value, JobIn(s.resolver).value;
      assert x != y;
      assert !Before(jobs, y, x);
    }
  }

  lemma IssueTasks(r: Relay, c: ConnId, op: Op, taskId: Option<TaskId>, epoch: Option<nat>, resolver: Resolver, running: set<JobId>)
    requires FreshOk(r.conns, r.flights, r.jobs, r.issued, r.next) && FramesOk(r.pending, r.timers, r.issued)
    requires TasksOk(r) && QuietOk(r.phase, running) && c in r.conns
    requires resolver.Call? ==>
      && CommandOk(r.conns, r.jobs, c, Command(r.conns[c].key, taskId, op, resolver.job))
      && resolver.bound == taskId.Some?
      && IsRunning(r.phase, JobIn(resolver))
    requires MaySend(BindingOf(r, c), r.issued, Sent(c, op, taskId, epoch, resolver))
    ensures TasksOk(Issue(r, c, op, taskId, epoch, resolver))
    ensures QuietOk(Issue(r, c, op, taskId, epoch, resolver).phase, Without(running, JobIn(resolver)))
  {
    IssueOlder(r);
    hide FreshOk, RegistryOk, TerminalOk, PendingOk, NoStrandedOk, FramesOk, SettledOk, RetriesOk, FlightsOk,
         CallsOk, HoldersOk, ChainOk, LaneOk, BindingOk, OrderOk, SubmissionOrderOk, NoReturnOk, StopsOk, QuietOk;
    hide CommandOk, MaySend;
    var s := Sent(c, op, taskId, epoch, resolver);
    IssueCalls(r.conns, r.jobs, r.flights, r.issued, r.next, s);
    if resolver.Call? {
      BoundCall(r.conns, r.jobs, c, Command(r.conns[c].key, taskId, op, resolver.job));
    }
    ProceedLane(r.jobs, r.phase, r.commandTails, running, JobIn(resolver), OnWire(r.next));
    IssueHolders(r.flights, r.issued, r.timers, r.jobs, r.phase, r.next, c, s);
    IssueBinding(r.binding, r.issued, r.next, s);
    IssueNoReturn(r.binding, r.issued, r.next, s);
    IssueSubmissionOrder(r.flights, r.issued, r.timers, r.jobs, r.phase, r.commandTails, r.next, s);
  }

  lemma BoundCall(conns: map<ConnId, Conn>, jobs: map<JobId, Job>, c: ConnId, cmd: Command)
    requires CommandOk(conns, jobs, c, cmd)
    ensures cmd.job.Some? == cmd.taskId.Some?
  {
  }

  lemma IssueOlder(r: Relay)
    requires FreshOk(r.conns, r.flights, r.jobs, r.issued, r.next) && FramesOk(r.pending, r.timers, r.issued)
    ensures (forall x <- r.issued :: x < r.next) && r.next !in r.timers
  {
  }

  lemma IssueStops(byConnection: map<Key, ConnId>, pendingStops: set<Key>, hole: set<Key>, pending: PendingTable,
                   retries: multiset<ConnId>, k: Key, id: CommandId, p: Pending)
    requires StopsOk(byConnection, pendingStops, hole, pending, retries)
    requires k in byConnection
    requires forall l <- byConnection :: byConnection[l] == byConnection[k] ==> l == k
    requires id !in Get(pending, byConnection[k], map[])
    requires p.resolver.Delivery? ==> k in hole && k in pendingStops
    ensures StopsOk(byConnection, pendingStops, if p.resolver.Delivery? then hole - {k} else hole,
                    pending[byConnection[k] := Get(pending, byConnection[k], map[])[id := p]], retries)
  {
    var c := byConnection[k];
    var q := Get(pending, c, map[]);
    if p.resolver.Delivery? {
      assert DeliveriesOf(q) == {};
      assert DeliveriesOf(q[id := p]) == {id};
    } else {
      assert DeliveriesOf(q[id := p]) == DeliveriesOf(q);
    }
  }

  lemma KnownKey(r: Relay, k: Key)
    requires RegistryOk(r.conns, r.byConnection, r.bySocket, r.closed) && k in r.byConnection
    ensures r.byConnection[k] in r.conns && r.conns[r.byConnection[k]].key == k && IsRegistered(r, r.byConnection[k])
    ensures r.conns[r.byConnection[k]].socket in r.bySocket && r.bySocket[r.conns[r.byConnection[k]].socket] == r.byConnection[k]
    ensures forall l <- r.byConnection :: r.byConnection[l] == r.byConnection[k] ==> l == k
  {
  }

  lemma FreshId(r: Relay, c: ConnId)
    requires PendingOk(r.pending, r.timers) && FramesOk(r.pending, r.timers, r.issued)
    requires FreshOk(r.conns, r.flights, r.jobs, r.issued, r.next)
    ensures r.next !in PendingOf(r, c)
  {
    assert r.next in PendingOf(r, c) ==> r.next in r.timers;
  }

  lemma DeliverKeeps(r: Relay, k: Key, hole: set<Key>, running: set<JobId>)
    requires Mid(r, hole, running) && k in r.byConnection && (k in r.pendingStops ==> k in hole)
    ensures Mid(DeliverPendingStop(r, r.byConnection[k], k), hole - {k}, running)
  {
    hide FreshOk, RegistryOk, TerminalOk, PendingOk, NoStrandedOk, FramesOk, SettledOk, RetriesOk, FlightsOk,
         CallsOk, HoldersOk, ChainOk, LaneOk, BindingOk, OrderOk, SubmissionOrderOk, NoReturnOk, StopsOk, QuietOk;
    hide MaySend;
    var c := r.byConnection[k];
    KnownKey(r, k);
    if k in r.pendingStops {
      FreshId(r, c);
      DeliveryMaySend(BindingOf(r, c), r.issued, c);
      IssueCore(r, c, Stop, None, None, Delivery);
      IssueTasks(r, c, Stop, None, None, Delivery, running);
      IssueStops(r.byConnection, r.pendingStops, hole, r.pending, r.retries, k, r.next, Pending(Stop, Delivery));
    } else {
      HoleNotNeeded(r.byConnection, r.pendingStops, hole, r.pending, r.retries, k);
    }
  }

  lemma DeliveryMaySend(b: Binding, issued: map<CommandId, Sent>, c: ConnId)
    ensures MaySend(b, issued, Sent(c, Stop, None, None, Delivery))
  {
  }

  lemma HoleNotNeeded(byConnection: map<Key, ConnId>, pendingStops: set<Key>, hole: set<Key>, pending: PendingTable,
                      retries: multiset<ConnId>, k: Key)
    requires StopsOk(byConnection, pendingStops, hole, pending, retries)
    requires k !in pendingStops || k !in byConnection
    ensures StopsOk(byConnection, pendingStops, hole - {k}, pending, retries)
  {
  }

  lemma FinishHolders(flights: map<FlightId, Flight>, issued: map<CommandId, Sent>, timers: Timers,
                      jobs: map<JobId, Job>, phase: map<JobId, Phase>, job: Option<JobId>)
    requires HoldersOk(flights, issued, timers, jobs, phase) && IsRunning(phase, job)
    ensures HoldersOk(flights, issued, timers, jobs, WithPhase(phase, job, Done))
  {
  }

  lemma FinishKeeps(r: Relay, job: Option<JobId>, hole: set<Key>, running: set<JobId>)
    requires Mid(r, hole, running)
    requires IsRunning(r.phase, job)
    ensures Mid(Finish(r, job), hole, Without(running, job))
  {
    hide FreshOk, RegistryOk, TerminalOk, PendingOk, NoStrandedOk, FramesOk, SettledOk, RetriesOk, FlightsOk,
         CallsOk, HoldersOk, ChainOk, LaneOk, BindingOk, OrderOk, SubmissionOrderOk, NoReturnOk, StopsOk, QuietOk;
    FinishHolders(r.flights, r.issued, r.timers, r.jobs, r.phase, job);
    ProceedLane(r.jobs, r.phase, r.commandTails, running, job, Done);
  }

  lemma IssueCallKeeps(r: Relay, c: ConnId, cmd: Command, epoch: Option<nat>, hole: set<Key>, running: set<JobId>)
    requires Mid(r, hole, running) && IsRegistered(r, c)
    requires CommandOk(r.conns, r.jobs, c, cmd)
    requires IsRunning(r.phase, cmd.job)
    requires MaySend(BindingOf(r, c), r.issued, Sent(c, cmd.op, cmd.taskId, epoch, Call(cmd.taskId.Some?, cmd.job)))
    ensures Mid(Issue(r, c, cmd.op, cmd.taskId, epoch, Call(cmd.taskId.Some?, cmd.job)), hole, Without(running, cmd.job))
  {
    hide FreshOk, RegistryOk, TerminalOk, PendingOk, NoStrandedOk, FramesOk, SettledOk, RetriesOk, FlightsOk,
         CallsOk, HoldersOk, ChainOk, LaneOk, BindingOk, OrderOk, SubmissionOrderOk, NoReturnOk, StopsOk, QuietOk;
    hide MaySend, CommandOk;
    var resolver := Call(cmd.taskId.Some?, cmd.job);
    CommandKey(r.conns, r.jobs, c, cmd);
    KnownKey(r, r.conns[c].key);
    FreshId(r, c);
    IssueCore(r, c, cmd.op, cmd.taskId, epoch, resolver);
    IssueTasks(r, c, cmd.op, cmd.taskId, epoch, resolver, running);
    IssueStops(r.byConnection, r.pendingStops, hole, r.pending, r.retries, r.conns[c].key, r.next, Pending(cmd.op, resolver));
  }

  lemma SendKeeps(r: Relay, c: ConnId, fillAllowed: bool, cmd: Command, hole: set<Key>, running: set<JobId>)
    requires Mid(r, hole, running) && IsRegistered(r, c)
    requires CommandOk(r.conns, r.jobs, c, cmd)
    requires IsRunning(r.phase, cmd.job)
    requires MaySend(BindingOf(r, c), r.issued, Sent(c, cmd.op, cmd.taskId, Get(r.controlEpoch, c, None), Call(cmd.taskId.Some?, cmd.job)))
    ensures Mid(Send(r, c, fillAllowed, cmd), hole, Without(running, cmd.job))
  {
    hide Mid, CommandOk, MaySend;
    if cmd.op == FillReference && !fillAllowed {
      FinishKeeps(r, cmd.job, hole, running);
    } else {
      IssueCallKeeps(r, c, cmd, Get(r.controlEpoch, c, None), hole, running);
    }
  }

  lemma CommandKey(conns: map<ConnId, Conn>, jobs: map<JobId, Job>, c: ConnId, cmd: Command)
    requires CommandOk(conns, jobs, c, cmd)
    ensures c in conns && cmd == Command(conns[c].key, cmd.taskId, cmd.op, cmd.job)
    ensures cmd.job.Some? == cmd.taskId.Some?
  {
  }

  // ---------------------------------------------------------------- settling one command

  lemma SettlePending(pending: PendingTable, timers: Timers, issued: map<CommandId, Sent>, c: ConnId, id: CommandId)
    requires PendingOk(pending, timers) && FramesOk(pending, timers, issued) && id in Get(pending, c, map[])
    ensures PendingOk(pending[c := Get(pending, c, map[]) - {id}], timers - {id})
    ensures FramesOk(pending[c := Get(pending, c, map[]) - {id}], timers - {id}, issued)
    ensures id in timers && timers[id] == c && id in issued && issued[id].conn == c
    ensures issued[id].resolver == Get(pending, c, map[])[id].resolver && issued[id].op == Get(pending, c, map[])[id].op
  {
    assert c in pending && id in pending[c];
    SettleTables(pending, timers, c, id);
    hide PendingOk;
  }

  /** One entry and its timer are taken out of both tables. */
  lemma SettleTables(pending: PendingTable, timers: Timers, c: ConnId, id: CommandId)
    requires PendingOk(pending, timers) && c in pending && id in pending[c]
    ensures PendingOk(pending[c := pending[c] - {id}], timers - {id})
  {
    var later, left := pending[c := pending[c] - {id}], timers - {id};
    forall x | x in left ensures x in Get(later, left[x], map[]) {
      assert x in timers && x != id;
    }
    forall d, x | d in later && x in later[d] ensures x in left && left[x] == d {
      assert d in pending && x in pending[d];
      assert timers[x] == d && timers[id] == c;
    }
  }

  lemma SettleSettled(issued: map<CommandId, Sent>, timers: Timers, settled: multiset<CommandId>, id: CommandId)
    requires SettledOk(issued, timers, settled) && id in timers && id in issued
    ensures SettledOk(issued, timers - {id}, settled + multiset{id})
  {
  }

  lemma SettleHolders(flights: map<FlightId, Flight>, issued: map<CommandId, Sent>, timers: Timers,
                      jobs: map<JobId, Job>, phase: map<JobId, Phase>, id: CommandId)
    requires HoldersOk(flights, issued, timers, jobs, phase) && id in timers && id in issued
    ensures
      var resolver := issued[id].resolver;
      && HoldersOk(flights, issued, timers - {id}, jobs, WithPhase(phase, JobIn(resolver), Done))
      && (JobIn(resolver).Some? ==> Get(phase, JobIn(resolver).value, Waiting) == OnWire(id))
  {
  }

  lemma SettleLane(jobs: map<JobId, Job>, phase: map<JobId, Phase>, tails: map<Key, JobId>, running: set<JobId>, job: Option<JobId>)
    requires LaneOk(jobs, phase, tails) && QuietOk(phase, running) && (job.Some? ==> Get(phase, job.value, Waiting).OnWire?)
    ensures LaneOk(jobs, WithPhase(phase, job, Done), tails) && QuietOk(WithPhase(phase, job, Done), running)
  {
  }

  lemma SettleStops(byConnection: map<Key, ConnId>, pendingStops: set<Key>, hole: set<Key>, pending: PendingTable,
                    retries: multiset<ConnId>, k: Key, id: CommandId, answer: Answer)
    requires StopsOk(byConnection, pendingStops, hole, pending, retries) && !answer.Aborted?
    requires k in byConnection && id in Get(pending, byConnection[k], map[])
    requires forall l <- byConnection :: byConnection[l] == byConnection[k] ==> l == k
    ensures
      var c := byConnection[k];
      var delivery := Get(pending, c, map[])[id].resolver.Delivery?;
      && (delivery ==> k in pendingStops && k !in hole)
      && StopsOk(byConnection,
           if delivery && answer.AnsweredOk? then pendingStops - {k} else pendingStops,
           if delivery && answer.Expired? then hole + {k} else hole,
           pending[c := Get(pending, c, map[]) - {id}],
           if delivery && answer.AnsweredFailed? then retries + multiset{c} else retries)
  {
    var c := byConnection[k];
    var p := Get(pending, c, map[]);
    if p[id].resolver.Delivery? {
      assert id in DeliveriesOf(p);
      assert DeliveriesOf(p - {id}) == {};
    } else {
      assert DeliveriesOf(p - {id}) == DeliveriesOf(p);
    }
  }

  lemma OneMoreRetry(conns: map<ConnId, Conn>, retries: multiset<ConnId>, c: ConnId)
    requires RetriesOk(conns, retries) && c in conns
    ensures RetriesOk(conns, retries + multiset{c})
  {
  }

  lemma SettleCore(r: Relay, c: ConnId, k: Key, id: CommandId, answer: Answer)
    requires CoreOk(r) && id in PendingOf(r, c) && c in r.conns
    ensures CoreOk(Settle(r, c, k, id, answer))
  {
    hide FreshOk, RegistryOk, TerminalOk, PendingOk, NoStrandedOk, FramesOk, SettledOk, RetriesOk, FlightsOk,
         CallsOk, HoldersOk, ChainOk, LaneOk, BindingOk, OrderOk, SubmissionOrderOk, NoReturnOk, StopsOk, QuietOk;
    SettlePending(r.pending, r.timers, r.issued, c, id);
    SettleSettled(r.issued, r.timers, r.settled, id);
    FewerTimers(r.conns, r.byConnection, r.timers, {id});
    OneMoreRetry(r.conns, r.retries, c);
  }

  lemma SettleTasks(r: Relay, c: ConnId, k: Key, id: CommandId, answer: Answer, running: set<JobId>)
    requires PendingOk(r.pending, r.timers) && FramesOk(r.pending, r.timers, r.issued)
    requires TasksOk(r) && QuietOk(r.phase, running) && id in PendingOf(r, c)
    ensures TasksOk(Settle(r, c, k, id, answer)) && QuietOk(Settle(r, c, k, id, answer).phase, running)
  {
    hide FreshOk, RegistryOk, TerminalOk, PendingOk, NoStrandedOk, FramesOk, SettledOk, RetriesOk, FlightsOk,
         CallsOk, HoldersOk, ChainOk, LaneOk, BindingOk, OrderOk, SubmissionOrderOk, NoReturnOk, StopsOk, QuietOk;
    hide WithPhase, JobIn;
    SettlePending(r.pending, r.timers, r.issued, c, id);
    SettleHolders(r.flights, r.issued, r.timers, r.jobs, r.phase, id);
    SettleLane(r.jobs, r.phase, r.commandTails, running, JobIn(PendingOf(r, c)[id].resolver));
  }

  lemma SettleKeeps(r: Relay, k: Key, id: CommandId, answer: Answer, hole: set<Key>, running: set<JobId>)
    requires Mid(r, hole, running) && k in r.byConnection && id in PendingOf(r, r.byConnection[k]) && !answer.Aborted?
    ensures
      var c := r.byConnection[k];
      var q := Settle(r, c, k, id, answer);
      && Mid(q, if PendingOf(r, c)[id].resolver.Delivery? && answer.Expired? then hole + {k} else hole, running)
      && (PendingOf(r, c)[id].resolver.Delivery? ==> k in r.pendingStops)
  {
    hide FreshOk, RegistryOk, TerminalOk, PendingOk, NoStrandedOk, FramesOk, SettledOk, RetriesOk, FlightsOk,
         CallsOk, HoldersOk, ChainOk, LaneOk, BindingOk, OrderOk, SubmissionOrderOk, NoReturnOk, StopsOk, QuietOk;
    KnownKey(r, k);
    SettleCore(r, r.byConnection[k], k, id, answer);
    SettleTasks(r, r.byConnection[k], k, id, answer, running);
    SettleStops(r.byConnection, r.pendingStops, hole, r.pending, r.retries, k, id, answer);
  }

  // ---------------------------------------------------------------- flights

  lemma AddFlightTables(r: Relay, f: Flight)
    requires FreshOk(r.conns, r.flights, r.jobs, r.issued, r.next) && !f.HelloFlight? && f.conn in r.conns
    requires FlightsOk(r.conns, r.bySocket, r.admitting, r.flights)
    ensures FreshOk(r.conns, r.flights[r.next := f], r.jobs, r.issued, r.next + 1)
    ensures FlightsOk(r.conns, r.bySocket, r.admitting, r.flights[r.next := f])
  {
  }

  lemma AddFlightTasks(r: Relay, f: Flight)
    requires FreshOk(r.conns, r.flights, r.jobs, r.issued, r.next) && !f.DispatchFlight?
    requires CallsOk(r.conns, r.jobs, r.flights, r.issued) && HoldersOk(r.flights, r.issued, r.timers, r.jobs, r.phase)
    ensures CallsOk(r.conns, r.jobs, r.flights[r.next := f], r.issued)
    ensures HoldersOk(r.flights[r.next := f], r.issued, r.timers, r.jobs, r.phase)
  {
  }

  lemma AddFlightKeeps(r: Relay, f: Flight, hole: set<Key>, running: set<JobId>)
    requires Mid(r, hole, running) && !f.HelloFlight? && !f.DispatchFlight? && f.conn in r.conns
    ensures Mid(AddFlight(r, f), hole, running)
  {
    hide FreshOk, RegistryOk, TerminalOk, PendingOk, NoStrandedOk, FramesOk, SettledOk, RetriesOk, FlightsOk,
         CallsOk, HoldersOk, ChainOk, LaneOk, BindingOk, OrderOk, SubmissionOrderOk, NoReturnOk, StopsOk, QuietOk;
    AddFlightTables(r, f);
    AddFlightTasks(r, f);
  }

  lemma AddHelloKeeps(r: Relay, f: Flight)
    requires Inv(r) && f.HelloFlight? && f.socket !in r.admitting && f.socket !in r.bySocket
    ensures Inv(AddFlight(r.(admitting := r.admitting + {f.socket}), f))
  {
    hide FreshOk, RegistryOk, TerminalOk, PendingOk, NoStrandedOk, FramesOk, SettledOk, RetriesOk, FlightsOk,
         CallsOk, HoldersOk, ChainOk, LaneOk, BindingOk, OrderOk, SubmissionOrderOk, NoReturnOk, StopsOk, QuietOk;
    AddHelloTables(r, f);
    AddFlightTasks(r, f);
  }

  lemma AddHelloTables(r: Relay, f: Flight)
    requires FreshOk(r.conns, r.flights, r.jobs, r.issued, r.next) && f.HelloFlight?
    requires f.socket !in r.admitting && f.socket !in r.bySocket
    requires FlightsOk(r.conns, r.bySocket, r.admitting, r.flights)
    ensures FreshOk(r.conns, r.flights[r.next := f], r.jobs, r.issued, r.next + 1)
    ensures FlightsOk(r.conns, r.bySocket, r.admitting + {f.socket}, r.flights[r.next := f])
  {
  }

  lemma AddDispatchTables(r: Relay, f: Flight)
    requires FreshOk(r.conns, r.flights, r.jobs, r.issued, r.next) && f.DispatchFlight?
    requires CallsOk(r.conns, r.jobs, r.flights, r.issued) && HoldersOk(r.flights, r.issued, r.timers, r.jobs, r.phase)
    requires CommandOk(r.conns, r.jobs, f.conn, f.command) && f.command.op != Stop
    requires IsRunning(r.phase, f.command.job)
    ensures CallsOk(r.conns, r.jobs, r.flights[r.next := f], r.issued)
    ensures HoldersOk(r.flights[r.next := f], r.issued, r.timers, r.jobs, WithPhase(r.phase, f.command.job, Checking(r.next)))
  {
    OneMoreCheck(r.conns, r.jobs, r.flights, r.issued, r.next, f);
    hide CallsOk, CommandOk;
  }

  lemma OneMoreCheck(conns: map<ConnId, Conn>, jobs: map<JobId, Job>, flights: map<FlightId, Flight>, issued: map<CommandId, Sent>,
                     next: FlightId, f: Flight)
    requires CallsOk(conns, jobs, flights, issued)
    requires f.DispatchFlight? && CommandOk(conns, jobs, f.conn, f.command) && f.command.op != Stop
    ensures CallsOk(conns, jobs, flights[next := f], issued)
  {
    hide CommandOk;
  }

  lemma AddDispatchKeeps(r: Relay, c: ConnId, cmd: Command, hole: set<Key>, running: set<JobId>)
    requires Mid(r, hole, running) && CommandOk(r.conns, r.jobs, c, cmd) && cmd.op != Stop
    requires IsRunning(r.phase, cmd.job)
    ensures Mid(AddFlight(r.(phase := WithPhase(r.phase, cmd.job, Checking(r.next))), DispatchFlight(c, cmd)), hole, Without(running, cmd.job))
  {
    CommandKey(r.conns, r.jobs, c, cmd);
    hide FreshOk, RegistryOk, TerminalOk, PendingOk, NoStrandedOk, FramesOk, SettledOk, RetriesOk, FlightsOk,
         CallsOk, HoldersOk, ChainOk, LaneOk, BindingOk, OrderOk, SubmissionOrderOk, NoReturnOk, StopsOk, QuietOk;
    hide CommandOk;
    AddFlightTables(r, DispatchFlight(c, cmd));
    AddDispatchTables(r, DispatchFlight(c, cmd));
    ProceedLane(r.jobs, r.phase, r.commandTails, running, cmd.job, Checking(r.next));
  }

  /** Take a flight off, as its handler resumes. */
  function Resumed(r: Relay, f: FlightId): Relay
    requires f in r.flights
  {
    r.(flights := r.flights - {f},
       admitting := if r.flights[f].HelloFlight? then r.admitting - {r.flights[f].socket} else r.admitting,
       phase := WithPhase(r.phase, JobOfFlight(r.flights[f]), Running))
  }

  function JobOfFlight(f: Flight): Option<JobId> {
    if f.DispatchFlight? then f.command.job else None
  }

  lemma ResumeFresh(conns: map<ConnId, Conn>, flights: map<FlightId, Flight>, jobs: map<JobId, Job>, issued: map<CommandId, Sent>, next: nat, f: FlightId)
    requires FreshOk(conns, flights, jobs, issued, next)
    ensures FreshOk(conns, flights - {f}, jobs, issued, next)
  {
  }

  lemma ResumeFlights(conns: map<ConnId, Conn>, bySocket: map<Socket, ConnId>, admitting: set<Socket>, flights: map<FlightId, Flight>, f: FlightId)
    requires FlightsOk(conns, bySocket, admitting, flights) && f in flights
    ensures FlightsOk(conns, bySocket, if flights[f].HelloFlight? then admitting - {flights[f].socket} else admitting, flights - {f})
    ensures flights[f].HelloFlight? ==> flights[f].socket !in bySocket
    ensures flights[f].HelloFlight? ==>
      forall g <- flights :: g != f && flights[g].HelloFlight? ==> flights[g].socket != flights[f].socket
    ensures !flights[f].HelloFlight? ==> flights[f].conn in conns
  {
  }

  lemma ResumeCalls(conns: map<ConnId, Conn>, jobs: map<JobId, Job>, flights: map<FlightId, Flight>, issued: map<CommandId, Sent>, f: FlightId)
    requires CallsOk(conns, jobs, flights, issued) && f in flights
    ensures CallsOk(conns, jobs, flights - {f}, issued)
    ensures flights[f].DispatchFlight? ==> CommandOk(conns, jobs, flights[f].conn, flights[f].command) && flights[f].command.op != Stop
  {
    hide CommandOk;
  }

  lemma ResumeHolders(flights: map<FlightId, Flight>, issued: map<CommandId, Sent>, timers: Timers,
                      jobs: map<JobId, Job>, phase: map<JobId, Phase>, f: FlightId)
    requires HoldersOk(flights, issued, timers, jobs, phase) && f in flights
    ensures HoldersOk(flights - {f}, issued, timers, jobs, WithPhase(phase, JobOfFlight(flights[f]), Running))
    ensures JobOfFlight(flights[f]).Some? ==> Get(phase, JobOfFlight(flights[f]).value, Done).Checking?
    ensures phase.Keys == jobs.Keys
  {
  }

  lemma ResumeLane(jobs: map<JobId, Job>, phase: map<JobId, Phase>, tails: map<Key, JobId>, job: Option<JobId>)
    requires LaneOk(jobs, phase, tails) && QuietOk(phase, {}) && (job.Some? ==> Get(phase, job.value, Done).Checking?)
    ensures LaneOk(jobs, WithPhase(phase, job, Running), tails)
    ensures QuietOk(WithPhase(phase, job, Running), if job.Some? then {job.value} else {})
  {
  }

  lemma ResumeKeeps(r: Relay, f: FlightId)
    requires Inv(r) && f in r.flights
    ensures Mid(Resumed(r, f), {}, if JobOfFlight(r.flights[f]).Some? then {JobOfFlight(r.flights[f]).value} else {})
    ensures r.flights[f].HelloFlight? ==>
      r.flights[f].socket !in r.bySocket
      && forall g <- r.flights :: g != f && r.flights[g].HelloFlight? ==> r.flights[g].socket != r.flights[f].socket
    ensures !r.flights[f].HelloFlight? ==> r.flights[f].conn in r.conns
    ensures r.flights[f].DispatchFlight? ==>
      CommandOk(r.conns, r.jobs, r.flights[f].conn, r.flights[f].command) && r.flights[f].command.op != Stop
  {
    hide FreshOk, RegistryOk, TerminalOk, PendingOk, NoStrandedOk, FramesOk, SettledOk, RetriesOk, FlightsOk,
         CallsOk, HoldersOk, ChainOk, LaneOk, BindingOk, OrderOk, SubmissionOrderOk, NoReturnOk, StopsOk, QuietOk;
    hide CommandOk, WithPhase;
    ResumedMid(r, f);
    ResumeFlights(r.conns, r.bySocket, r.admitting, r.flights, f);
    ResumeCalls(r.conns, r.jobs, r.flights, r.issued, f);
  }

  lemma ResumedMid(r: Relay, f: FlightId)
    requires Inv(r) && f in r.flights
    ensures Mid(Resumed(r, f), {}, if JobOfFlight(r.flights[f]).Some? then {JobOfFlight(r.flights[f]).value} else {})
  {
    hide FreshOk, RegistryOk, TerminalOk, PendingOk, NoStrandedOk, FramesOk, SettledOk, RetriesOk, FlightsOk,
         CallsOk, HoldersOk, ChainOk, LaneOk, BindingOk, OrderOk, SubmissionOrderOk, NoReturnOk, StopsOk, QuietOk;
    hide CommandOk, WithPhase;
    ResumedCore(r, f);
    ResumedTasks(r, f);
    hide CoreOk, TasksOk;
  }

  /** The call that the flight's handler runs for, if any. */
  function RunningAfter(f: Flight): set<JobId> {
    if JobOfFlight(f).Some? then {JobOfFlight(f).value} else {}
  }

  lemma ResumedCore(r: Relay, f: FlightId)
    requires CoreOk(r) && f in r.flights
    ensures CoreOk(Resumed(r, f))
  {
    hide FreshOk, RegistryOk, TerminalOk, PendingOk, NoStrandedOk, FramesOk, SettledOk, RetriesOk, FlightsOk;
    hide WithPhase;
    ResumeFresh(r.conns, r.flights, r.jobs, r.issued, r.next, f);
    ResumeFlights(r.conns, r.bySocket, r.admitting, r.flights, f);
  }

  lemma ResumedTasks(r: Relay, f: FlightId)
    requires TasksOk(r) && QuietOk(r.phase, {}) && f in r.flights
    ensures TasksOk(Resumed(r, f)) && QuietOk(Resumed(r, f).phase, RunningAfter(r.flights[f]))
  {
    hide CallsOk, HoldersOk, ChainOk, LaneOk, BindingOk, OrderOk, SubmissionOrderOk, NoReturnOk, QuietOk;
    hide CommandOk, WithPhase;
    ResumeTables(r.conns, r.flights, r.jobs, r.issued, r.timers, r.phase, r.commandTails, f);
  }

  lemma ResumeTables(conns: map<ConnId, Conn>, flights: map<FlightId, Flight>, jobs: map<JobId, Job>, issued: map<CommandId, Sent>,
                     timers: Timers, phase: map<JobId, Phase>, tails: map<Key, JobId>, f: FlightId)
    requires CallsOk(conns, jobs, flights, issued) && HoldersOk(flights, issued, timers, jobs, phase)
    requires LaneOk(jobs, phase, tails) && QuietOk(phase, {}) && f in flights
    ensures
      var later := WithPhase(phase, JobOfFlight(flights[f]), Running);
      && CallsOk(conns, jobs, flights - {f}, issued) && HoldersOk(flights - {f}, issued, timers, jobs, later)
      && LaneOk(jobs, later, tails) && QuietOk(later, RunningAfter(flights[f]))
  {
    hide CallsOk, HoldersOk, LaneOk, QuietOk, CommandOk, WithPhase;
    ResumeCalls(conns, jobs, flights, issued, f);
    ResumeHolders(flights, issued, timers, jobs, phase, f);
    ResumeLane(jobs, phase, tails, JobOfFlight(flights[f]));
  }
}
