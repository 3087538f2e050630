/** What each of the relay's handlers does, frame by frame: who is admitted, what is settled, what is sent, who was heard. */
module RelayHandlers {
  import opened Options
  import opened RelayState
  import opened RelayInvariants
  import opened RelayProofs
  import opened RelaySteps
  import opened RelayTheorems
  import opened RelayHistory
  import opened RelayFrames
  import opened RelayDispatch
  import opened RelayAdmissions
  import opened RelayVerdicts

  lemma Registry(r: Relay)
    requires Inv(r)
    ensures RegistryOk(r.conns, r.byConnection, r.bySocket, r.closed)
  {
    hide FreshOk, RegistryOk, TerminalOk, PendingOk, NoStrandedOk, FramesOk, SettledOk, RetriesOk, FlightsOk,
         CallsOk, HoldersOk, ChainOk, LaneOk, BindingOk, OrderOk, SubmissionOrderOk, NoReturnOk, StopsOk, QuietOk;
  }

  // ---------------------------------------------------------------- hello and admission

  /** A hello is dropped on a closed socket, ends a socket that spoke before, is refused without an identity, and else waits for admission. */
  lemma HelloMeans(r: Relay, s: Socket, identity: Option<Key>, fillAllowed: bool)
    requires Inv(r)
    ensures
      var q := Step(r, Hello(s, identity, fillAllowed));
      if s in r.closed then q == r
      else if s in r.bySocket || s in r.admitting
      then s in q.closed && q.conns == r.conns && q.flights == r.flights && (s in r.bySocket ==> Dead(q, r.bySocket[s]))
      else if identity.None? then q == r
      else SaysHello(r, q, s, identity, fillAllowed)
  {
    hide Inv, Disconnect, Dead, AddFlight, RegistryOk;
    Registry(r);
    DisconnectEpochs(r, s);
    DisconnectCloses(r, s);
    if s in r.bySocket {
      KnownReceiver(r, s);
      DisconnectForgets(r, r.bySocket[s]);
    }
  }

  /** Granted on a socket that is still open, the hello registers exactly the new connection, in place of the profile's old one. */
  ghost predicate Registers(r: Relay, q: Relay, h: Flight)
    requires h.HelloFlight?
  {
    && q.conns == r.conns[r.next := Conn(h.key, h.socket, h.fillAllowed)] && q.byConnection == r.byConnection[h.key := r.next]
    && h.socket in q.bySocket && q.bySocket[h.socket] == r.next && h.socket !in q.closed
    && (h.key in r.byConnection ==> Dead(q, r.byConnection[h.key]) && r.byConnection[h.key] in r.conns && r.conns[r.byConnection[h.key]].socket in q.closed)
  }

  lemma AdmissionMeans(r: Relay, f: FlightId, verdict: bool, now: int)
    requires Inv(r) && f in r.flights && r.flights[f].HelloFlight?
    ensures
      var q, h := Step(r, Admitted(f, verdict, now)), r.flights[f];
      if verdict && h.socket !in r.closed then Registers(r, q, h)
      else q.conns == r.conns && q.byConnection == r.byConnection && q.issued == r.issued && (!verdict ==> h.socket in q.closed)
  {
    hide Registers, HelloResume;
    if verdict && r.flights[f].socket !in r.closed { AdmittedRegisters(r, f, now); } else { NotAdmitted(r, f, verdict, now); }
  }

  lemma NotAdmitted(r: Relay, f: FlightId, verdict: bool, now: int)
    requires Inv(r) && f in r.flights && r.flights[f].HelloFlight? && (!verdict || r.flights[f].socket in r.closed)
    ensures
      var q, h := HelloResume(r, f, verdict, now), r.flights[f];
      q.conns == r.conns && q.byConnection == r.byConnection && q.issued == r.issued && (!verdict ==> h.socket in q.closed)
  {
    ResumeKeeps(r, f);
    Registry(r);
    hide Mid, Disconnect, RegistryOk, Resumed, Register, DeliverPendingStop, SetTerminal;
    var h := r.flights[f];
    var m := r.(flights := r.flights - {f}, admitting := r.admitting - {h.socket});
    DisconnectEpochs(m, h.socket);
    DisconnectCloses(m, h.socket);
    DisconnectUnknown(m, h.socket);
  }

  lemma DisconnectUnknown(r: Relay, s: Socket)
    ensures s !in r.bySocket ==> Disconnect(r, s).byConnection == r.byConnection
  {
  }

  lemma AdmittedRegisters(r: Relay, f: FlightId, now: int)
    requires Inv(r) && f in r.flights && r.flights[f].HelloFlight? && r.flights[f].socket !in r.closed
    ensures Registers(r, HelloResume(r, f, true, now), r.flights[f])
  {
    ResumeKeeps(r, f);
    Registry(r);
    IdsAreFresh(r);
    hide Mid, HelloResume, WithoutOld, RegistryOk, Resumed, Register, DeliverPendingStop, SetTerminal, Registers, Gone;
    var h := r.flights[f];
    var m := r.(flights := r.flights - {f}, admitting := r.admitting - {h.socket});
    SameRegistry(r, m);
    ReplacedIsGone(m, h.key, h.socket);
    SameGone(r, m, WithoutOld(m, h.socket, h.key), h);
    WelcomeRegisters(r, WithoutOld(m, h.socket, h.key), h, now);
    ResumeIs(r, f, now);
  }

  lemma ResumeIs(r: Relay, f: FlightId, now: int)
    requires f in r.flights && r.flights[f].HelloFlight? && r.flights[f].socket !in r.closed
    ensures
      var h := r.flights[f];
      var q := WithoutOld(r.(flights := r.flights - {f}, admitting := r.admitting - {h.socket}), h.socket, h.key);
      var g := Register(q, h.socket, h.key, h.fillAllowed, now);
      HelloResume(r, f, true, now) ==
      if h.key in g.pendingStops then DeliverPendingStop(SetTerminal(g, q.next, h.key, Some(Stopped)), q.next, h.key) else g
  {
    hide Disconnect, Register, DeliverPendingStop, SetTerminal;
  }

  /** What the admission of `s` does with the connection the profile has. */
  function WithoutOld(m: Relay, s: Socket, k: Key): Relay {
    if k in m.byConnection && m.byConnection[k] in m.conns && m.conns[m.byConnection[k]].socket != s
    then Disconnect(m, m.conns[m.byConnection[k]].socket) else m
  }

  /** The profile's old connection, if it had one, is out of the registry, and its socket closed. */
  ghost predicate Gone(m: Relay, q: Relay, k: Key) {
    && q.conns == m.conns && q.next == m.next && q.byConnection == m.byConnection - {k}
    && (k in m.byConnection ==>
          && m.byConnection[k] in m.conns && m.conns[m.byConnection[k]].key == k
          && q.closed == m.closed + {m.conns[m.byConnection[k]].socket})
    && (k !in m.byConnection ==> q.closed == m.closed)
  }

  lemma SameGone(r: Relay, m: Relay, q: Relay, h: Flight)
    requires h.HelloFlight? && Gone(m, q, h.key)
    requires m.conns == r.conns && m.byConnection == r.byConnection && m.closed == r.closed && m.next == r.next
    ensures Gone(r, q, h.key)
  {
  }

  lemma WelcomeRegisters(r: Relay, q: Relay, h: Flight, now: int)
    requires h.HelloFlight? && Gone(r, q, h.key) && (forall c <- r.conns :: c < r.next)
    requires h.socket !in r.closed && h.socket !in r.bySocket && RegistryOk(r.conns, r.byConnection, r.bySocket, r.closed)
    ensures
      var g := Register(q, h.socket, h.key, h.fillAllowed, now);
      Registers(r, g, h) && Registers(r, DeliverPendingStop(SetTerminal(g, q.next, h.key, Some(Stopped)), q.next, h.key), h)
  {
    if h.key in r.byConnection { KnownKey(r, h.key); }
    hide RegistryOk, Register, DeliverPendingStop, SetTerminal, Registers;
    RegisterMeans(r, q, h, now);
    var g := Register(q, h.socket, h.key, h.fillAllowed, now);
    WelcomeMeans(g, q.next, h.key);
    SameRegisters(r, g, DeliverPendingStop(SetTerminal(g, q.next, h.key, Some(Stopped)), q.next, h.key), h);
  }

  lemma IdsAreFresh(r: Relay)
    requires Inv(r)
    ensures forall c <- r.conns :: c < r.next
  {
    hide RegistryOk, TerminalOk, PendingOk, NoStrandedOk, FramesOk, SettledOk, RetriesOk, FlightsOk,
         CallsOk, HoldersOk, ChainOk, LaneOk, BindingOk, OrderOk, SubmissionOrderOk, NoReturnOk, StopsOk, QuietOk;
  }

  lemma SameRegistry(r: Relay, m: Relay)
    requires RegistryOk(r.conns, r.byConnection, r.bySocket, r.closed)
    requires m.conns == r.conns && m.byConnection == r.byConnection && m.bySocket == r.bySocket && m.closed == r.closed
    ensures RegistryOk(m.conns, m.byConnection, m.bySocket, m.closed)
  {
  }

  lemma ReplacedIsGone(m: Relay, k: Key, s: Socket)
    requires RegistryOk(m.conns, m.byConnection, m.bySocket, m.closed) && s !in m.bySocket
    ensures Gone(m, WithoutOld(m, s, k), k)
  {
    hide Disconnect;
    if k in m.byConnection {
      KnownKey(m, k);
      KnownIsGone(m, k);
    } else {
      assert m.byConnection - {k} == m.byConnection;
    }
    hide RegistryOk;
  }

  lemma KnownIsGone(m: Relay, k: Key)
    requires RegistryOk(m.conns, m.byConnection, m.bySocket, m.closed) && k in m.byConnection
    ensures m.byConnection[k] in m.conns && Gone(m, Disconnect(m, m.conns[m.byConnection[k]].socket), k)
  {
    KnownKey(m, k);
    hide RejectPending, Unregister, RegistryOk;
    var s := m.conns[m.byConnection[k]].socket;
    RejectLeaves(m, m.bySocket[s]);
    UnregisterRegistry(RejectPending(m, m.bySocket[s]), s);
    UnregisterSends(RejectPending(m, m.bySocket[s]), s);
    UnregisterNext(RejectPending(m, m.bySocket[s]), s);
  }

  lemma UnregisterNext(r: Relay, s: Socket)
    ensures Unregister(r, s).next == r.next && Unregister(r, s).closed == r.closed + {s}
  {
    hide WithoutSocket;
  }

  lemma RegisterMeans(r: Relay, q: Relay, h: Flight, now: int)
    requires h.HelloFlight? && Gone(r, q, h.key) && h.socket !in r.closed && forall c <- r.conns :: c < r.next
    requires h.key in r.byConnection ==> r.conns[r.byConnection[h.key]].socket != h.socket
    ensures Registers(r, Register(q, h.socket, h.key, h.fillAllowed, now), h)
  {
    assert (r.byConnection - {h.key})[h.key := r.next] == r.byConnection[h.key := r.next];
  }

  lemma WelcomeMeans(g: Relay, c: ConnId, k: Key)
    ensures SameSides(g, DeliverPendingStop(SetTerminal(g, c, k, Some(Stopped)), c, k))
  {
    hide SetTerminal, Issue, SameSides;
    TerminalSides(g, c, k);
    IssueSides(g, SetTerminal(g, c, k, Some(Stopped)), c);
  }

  ghost predicate SameSides(g: Relay, d: Relay) {
    d.conns == g.conns && d.byConnection == g.byConnection && d.bySocket == g.bySocket && d.closed == g.closed
  }

  lemma TerminalSides(g: Relay, c: ConnId, k: Key)
    ensures SameSides(g, SetTerminal(g, c, k, Some(Stopped)))
  {
  }

  lemma IssueSides(g: Relay, d: Relay, c: ConnId)
    requires SameSides(g, d)
    ensures SameSides(g, Issue(d, c, Stop, None, None, Delivery))
  {
    hide PendingOf, WithPhase;
  }

  lemma SameRegisters(r: Relay, g: Relay, d: Relay, h: Flight)
    requires h.HelloFlight? && Registers(r, g, h) && SameSides(g, d)
    ensures Registers(r, d, h)
  {
  }

  // ---------------------------------------------------------------- events

  /** Everything that was in flight on `c` is settled, its timers are disarmed, and nothing else is touched. */
  ghost predicate AllSettled(r: Relay, q: Relay, c: ConnId) {
    var p := PendingOf(r, c);
    && q.pending == r.pending[c := map[]] && q.timers == r.timers - p.Keys && q.settled == r.settled + multiset(p.Keys)
    && q.issued == r.issued && q.flights == r.flights && q.byConnection == r.byConnection && q.bySocket == r.bySocket
    && q.closed == r.closed
  }

  /** The terminal event of `c`, and of its profile. */
  ghost predicate TerminalSet(r: Relay, q: Relay, c: ConnId, k: Key, event: Option<Terminal>) {
    && q.terminalEvent == r.terminalEvent[c := event]
    && q.terminalByConnection == if event.Some? then r.terminalByConnection[k := event.value] else r.terminalByConnection - {k}
  }

  ghost predicate TerminalKept(r: Relay, q: Relay) {
    q.terminalEvent == r.terminalEvent && q.terminalByConnection == r.terminalByConnection
  }

  /** Stopped, a closed tab and a lost debugger all end whatever is in flight; the first two are remembered, the last is not. */
  lemma EventMeans(r: Relay, s: Socket, kind: EventKind, epoch: Option<nat>, now: int)
    ensures
      var q := Step(r, ExtensionEvent(s, kind, epoch, now));
      match Receiver(r, s)
      case None => q == r
      case Some(c) =>
        && AllSettled(r, q, c) && PendingOf(q, c) == map[]
        && match kind
           case EvStopped => TerminalSet(r, q, c, r.conns[c].key, Some(Stopped))
           case EvTabClosed => TerminalSet(r, q, c, r.conns[c].key, Some(TabClosed))
           case EvDetached => TerminalKept(r, q)
  {
    hide RejectPending, Receiver, EventFrame, SetTerminal, AllSettled, TerminalSet, TerminalKept;
    if Receiver(r, s).Some? {
      ReceiverExists(r, s);
      HandledMeans(r, Receiver(r, s).value, s, kind, epoch, now);
    } else {
      Unheard(r, s, kind, epoch, now);
    }
  }

  lemma Unheard(r: Relay, s: Socket, kind: EventKind, epoch: Option<nat>, now: int)
    requires Receiver(r, s).None?
    ensures EventFrame(r, s, kind, epoch, now) == r
  {
    hide Receiver;
  }

  lemma HandledMeans(r: Relay, c: ConnId, s: Socket, kind: EventKind, epoch: Option<nat>, now: int)
    requires Receiver(r, s) == Some(c) && c in r.conns
    ensures
      var q, k := EventFrame(r, s, kind, epoch, now), r.conns[c].key;
      && AllSettled(r, q, c) && PendingOf(q, c) == map[]
      && match kind
         case EvStopped => TerminalSet(r, q, c, k, Some(Stopped))
         case EvTabClosed => TerminalSet(r, q, c, k, Some(TabClosed))
         case EvDetached => TerminalKept(r, q)
  {
    hide Receiver, RejectPending, SetTerminal, AllSettled, TerminalSet, TerminalKept;
    var k := r.conns[c].key;
    var u := r.(lastSeenAt := r.lastSeenAt[c := now],
                controlEpoch := if kind.EvStopped? && epoch.Some? then r.controlEpoch[c := epoch] else r.controlEpoch);
    match kind {
      case EvStopped => NotedThenSettled(r, u, c, k, Stopped);
      case EvTabClosed => NotedThenSettled(r, u, c, k, TabClosed);
      case EvDetached => OnlySettled(r, u, c);
    }
  }

  lemma NotedThenSettled(r: Relay, u: Relay, c: ConnId, k: Key, event: Terminal)
    requires u == r.(lastSeenAt := u.lastSeenAt, controlEpoch := u.controlEpoch)
    ensures
      var q := RejectPending(SetTerminal(u, c, k, Some(event)), c);
      AllSettled(r, q, c) && PendingOf(q, c) == map[] && TerminalSet(r, q, c, k, Some(event))
  {
    hide RejectPending;
    RejectLeaves(SetTerminal(u, c, k, Some(event)), c);
  }

  lemma OnlySettled(r: Relay, u: Relay, c: ConnId)
    requires u == r.(lastSeenAt := u.lastSeenAt, controlEpoch := u.controlEpoch)
    ensures var q := RejectPending(u, c); AllSettled(r, q, c) && PendingOf(q, c) == map[] && TerminalKept(r, q)
  {
    hide RejectPending;
    RejectLeaves(u, c);
  }

  // ---------------------------------------------------------------- results

  /** Exactly this command is settled, and its timer disarmed. */
  ghost predicate SettlesOne(r: Relay, q: Relay, c: ConnId, id: CommandId)
    requires id in PendingOf(r, c)
  {
    && q.pending == r.pending[c := PendingOf(r, c) - {id}] && q.timers == r.timers - {id} && q.settled == r.settled + multiset{id}
    && q.issued == r.issued && q.byConnection == r.byConnection && q.bySocket == r.bySocket && q.closed == r.closed
  }

  ghost predicate SettlesNone(r: Relay, q: Relay) {
    && q.pending == r.pending && q.timers == r.timers && q.settled == r.settled
    && q.issued == r.issued && q.byConnection == r.byConnection && q.bySocket == r.bySocket && q.closed == r.closed
  }

  lemma SettleIs(r: Relay, c: ConnId, k: Key, id: CommandId, answer: Answer)
    requires id in PendingOf(r, c)
    ensures var q := Settle(r, c, k, id, answer); SettlesOne(r, q, c, id) && TerminalKept(r, q) && q.flights == r.flights && q.next == r.next
  {
    hide WithPhase;
  }

  /** A result for a Stop settles it at once, whoever the authority is; any other waits for the authority. */
  lemma ResultMeans(r: Relay, s: Socket, id: CommandId, ok: bool, now: int)
    requires Receiver(r, s).Some? && Current(r, Receiver(r, s).value)
    ensures
      var q, c := Step(r, Result(s, id, ok, now)), Receiver(r, s).value;
      if id in PendingOf(r, c) && PendingOf(r, c)[id].op == Stop
      then
        && SettlesOne(r, q, c, id) && q.flights == r.flights[r.next := SafetyFlight(c)]
        && (if ok then TerminalSet(r, q, c, r.conns[c].key, Some(Stopped)) else TerminalKept(r, q))
      else SettlesNone(r, q) && TerminalKept(r, q) && q.flights == r.flights[r.next := ResultFlight(c, id, ok)]
  {
    var c := Receiver(r, s).value;
    var t := Touch(r, c, now);
    StillCurrent(r, t, c);
    hide Settle, SetTerminal, Receiver, Current, SettlesOne, SettlesNone, TerminalSet, TerminalKept, AddFlight;
    TouchedOnly(r, c, now, ResultFlight(c, id, ok));
    if id in PendingOf(r, c) { StopSettled(r, c, now, r.conns[c].key, id, ok); }
  }

  lemma TouchedOnly(r: Relay, c: ConnId, now: int, f: Flight)
    ensures
      var t := Touch(r, c, now);
      var q := AddFlight(t, f);
      PendingOf(t, c) == PendingOf(r, c) && SettlesNone(r, q) && TerminalKept(r, q) && q.flights == r.flights[r.next := f]
  {
  }

  lemma StopSettled(r: Relay, c: ConnId, now: int, k: Key, id: CommandId, ok: bool)
    requires id in PendingOf(r, c)
    ensures
      var t := Touch(r, c, now);
      var u := if ok then SetTerminal(Settle(t, c, k, id, AnsweredOk), c, k, Some(Stopped)) else Settle(t, c, k, id, AnsweredFailed);
      var q := AddFlight(u, SafetyFlight(c));
      && SettlesOne(r, q, c, id) && q.flights == r.flights[r.next := SafetyFlight(c)]
      && (if ok then TerminalSet(r, q, c, k, Some(Stopped)) else TerminalKept(r, q))
  {
    hide Settle;
    SettleIs(Touch(r, c, now), c, k, id, if ok then AnsweredOk else AnsweredFailed);
  }

  /**
   * What a grant does: a ping, a renewal and a safety check go on as before; a result settles its command
   * if the connection is still registered and the command still pending, and an ok one clears the
   * terminal event; a waiting command meets the guards of `SentOrNot` if its connection is still registered.
   */
  lemma GrantMeans(r: Relay, f: FlightId)
    requires Inv(r) && f in r.flights && !r.flights[f].HelloFlight?
    ensures
      var q, c, m := Step(r, Checked(f, true)), r.flights[f].conn, r.(flights := r.flights - {f});
      && c in r.conns
      && match r.flights[f]
         case ResultFlight(_, id, ok) =>
           if IsRegistered(r, c) && id in PendingOf(r, c)
           then
             && SettlesOne(r, q, c, id) && q.flights == m.flights
             && (if ok then TerminalSet(r, q, c, r.conns[c].key, None) else TerminalKept(r, q))
           else q == m
         case DispatchFlight(_, cmd) =>
           if IsRegistered(r, c) then SentOrNot(SetRunning(m, cmd.job), q, c, r.conns[c], cmd)
           else q == Finish(SetRunning(m, cmd.job), cmd.job)
         case _ => q == m
  {
    hide Inv, CheckResume, IsRegistered, SettlesOne, TerminalSet, TerminalKept, SentOrNot, SetRunning, Finish, Current;
    FlightKnown(r, f);
    match r.flights[f] {
      case ResultFlight(c, id, ok) => GrantedResult(r, f, c, id, ok);
      case DispatchFlight(c, cmd) => GrantedCommand(r, f, c, cmd);
      case _ => GrantedOther(r, f);
    }
  }

  lemma GrantedOther(r: Relay, f: FlightId)
    requires f in r.flights && !r.flights[f].HelloFlight? && !r.flights[f].ResultFlight? && !r.flights[f].DispatchFlight?
    requires r.flights[f].conn in r.conns
    ensures CheckResume(r, f, true) == r.(flights := r.flights - {f})
  {
  }

  lemma GrantedResult(r: Relay, f: FlightId, c: ConnId, id: CommandId, ok: bool)
    requires f in r.flights && r.flights[f] == ResultFlight(c, id, ok) && c in r.conns && (Current(r, c) <==> IsRegistered(r, c))
    ensures
      var q, m := CheckResume(r, f, true), r.(flights := r.flights - {f});
      if IsRegistered(r, c) && id in PendingOf(r, c)
      then
        && SettlesOne(r, q, c, id) && q.flights == m.flights
        && (if ok then TerminalSet(r, q, c, r.conns[c].key, None) else TerminalKept(r, q))
      else q == m
  {
    var m := r.(flights := r.flights - {f});
    StillCurrent(r, m, c);
    hide Settle, SetTerminal, Current, IsRegistered, SettlesOne, TerminalSet, TerminalKept;
    if id in PendingOf(r, c) { ResultSettled(r, m, c, r.conns[c].key, id, ok); }
  }

  lemma GrantedCommand(r: Relay, f: FlightId, c: ConnId, cmd: Command)
    requires f in r.flights && r.flights[f] == DispatchFlight(c, cmd) && c in r.conns && (Current(r, c) <==> IsRegistered(r, c))
    ensures
      var q, m := CheckResume(r, f, true), r.(flights := r.flights - {f});
      if IsRegistered(r, c) then SentOrNot(SetRunning(m, cmd.job), q, c, r.conns[c], cmd)
      else q == Finish(SetRunning(m, cmd.job), cmd.job)
  {
    var m := r.(flights := r.flights - {f});
    RunningRegistry(m, cmd.job);
    StillCurrent(r, SetRunning(m, cmd.job), c);
    hide BindAndSend, SetRunning, Finish, Current, IsRegistered, SentOrNot;
    BindAndSendMeans(SetRunning(m, cmd.job), c, r.conns[c], cmd);
  }

  lemma ResultSettled(r: Relay, m: Relay, c: ConnId, k: Key, id: CommandId, ok: bool)
    requires id in PendingOf(r, c) && m == r.(flights := m.flights)
    ensures id in PendingOf(m, c) && id in PendingOf(SetTerminal(m, c, k, None), c)
    ensures
      var q := if ok then Settle(SetTerminal(m, c, k, None), c, k, id, AnsweredOk) else Settle(m, c, k, id, AnsweredFailed);
      SettlesOne(r, q, c, id) && q.flights == m.flights && if ok then TerminalSet(r, q, c, k, None) else TerminalKept(r, q)
  {
    SettleIs(SetTerminal(m, c, k, None), c, k, id, AnsweredOk);
    SettleIs(m, c, k, id, AnsweredFailed);
    hide Settle;
  }

  // ---------------------------------------------------------------- timers and calls

  /** An unbound command that times out is settled, and its connection stays. */
  lemma UnboundTimeoutMeans(r: Relay, id: CommandId)
    requires Armed(r, id) && PendingOf(r, r.timers[id])[id].resolver.Call? && !PendingOf(r, r.timers[id])[id].resolver.bound
    ensures SettlesOne(r, Step(r, TimerFired(id)), r.timers[id], id)
  {
    hide Settle, SettlesOne;
    SettleIs(r, r.timers[id], r.conns[r.timers[id]].key, id, Expired);
  }

  /** A queued call that starts asks for its command on the connection it was submitted on, or is over if another one is registered. */
  lemma CallMeans(r: Relay, j: JobId)
    requires j in r.jobs
    ensures
      var job := r.jobs[j];
      if Lookup(r.byConnection, job.key) == job.connection
      then AskedFirst(r, RunJob(r, j), Command(job.key, Some(job.taskId), job.op, Some(j)))
      else RunJob(r, j) == Finish(r, Some(j))
  {
    hide DispatchBound, AskedFirst, Finish;
    var job := r.jobs[j];
    DispatchBoundMeans(r, Command(job.key, Some(job.taskId), job.op, Some(j)));
  }

  /** The frame of `j`'s Stop is on the wire of `c`, and its task, still the active one, is retired. */
  ghost predicate StopOnWire(r: Relay, q: Relay, id: CommandId, c: ConnId, t: TaskId, j: JobId) {
    && id !in r.issued && q.issued == r.issued[id := Sent(c, Stop, Some(t), Get(r.controlEpoch, c, None), Call(true, Some(j)))]
    && Lookup(q.timers, id) == Some(c) && BindingOf(q, c).activeTaskId == Some(t) && t in BindingOf(q, c).retiredTaskIds
  }

  lemma StopRuns(r: Relay, j: JobId, c: ConnId)
    requires j in r.jobs && r.jobs[j].op == Stop && r.jobs[j].connection == Some(c) == Lookup(r.byConnection, r.jobs[j].key)
    requires c in r.conns && BindingOf(r, c).activeTaskId == Some(r.jobs[j].taskId) && r.next !in r.issued
    ensures StopOnWire(r, RunJob(r, j), r.next, c, r.jobs[j].taskId, j)
  {
    hide RunJob;
    CallMeans(r, j);
    hide RevokedInstead, Refused, OnlyQueued, OnlyAsked, Finish;
  }

  predicate StopFor(job: Job, k: Key, c: ConnId, t: TaskId) {
    job.key == k && job.connection == Some(c) && job.taskId == t && job.op == Stop
  }

  /** Stop for the active task is never turned away: submitted with nothing before it, it goes out in that very step. */
  lemma ActiveStopIsSent(r: Relay, k: Key, t: TaskId)
    requires Inv(r) && k in r.byConnection && BindingOf(r, r.byConnection[k]).activeTaskId == Some(t) && k !in r.commandTails
    ensures StopOnWire(r, Step(r, CallBound(k, t, Stop)), r.next + 1, r.byConnection[k], t, r.next)
  {
    hide Inv, RunJob, StopOnWire;
    FreshFrames(r, k);
    var a := AddJob(r, k, t, Stop);
    StopRuns(a, r.next, r.byConnection[k]);
    AddedWire(r, a, RunJob(a, r.next), r.next + 1, r.byConnection[k], t, r.next);
  }

  /** And queued, it goes out in the step in which it starts, if the connection it was submitted on is still registered. */
  lemma QueuedStopIsSent(r: Relay, j: JobId, k: Key, t: TaskId)
    requires Inv(r) && k in r.byConnection && BindingOf(r, r.byConnection[k]).activeTaskId == Some(t)
    requires MayStart(r, j) && StopFor(r.jobs[j], k, r.byConnection[k], t)
    ensures StopOnWire(r, Step(r, TailResolved(j)), r.next, r.byConnection[k], t, j)
  {
    hide Inv, RunJob, StopOnWire;
    FreshFrames(r, k);
    var s := SetRunning(r, Some(j));
    StopRuns(s, j, r.byConnection[k]);
    AddedWire(r, s, RunJob(s, j), r.next, r.byConnection[k], t, j);
  }

  lemma AddedWire(r: Relay, a: Relay, q: Relay, id: CommandId, c: ConnId, t: TaskId, j: JobId)
    requires StopOnWire(a, q, id, c, t, j) && a.issued == r.issued && a.controlEpoch == r.controlEpoch
    ensures StopOnWire(r, q, id, c, t, j)
  {
  }

  lemma FreshFrames(r: Relay, k: Key)
    requires Inv(r) && k in r.byConnection
    ensures r.next !in r.issued && r.next + 1 !in r.issued && r.byConnection[k] in r.conns
  {
    hide TerminalOk, PendingOk, NoStrandedOk, FramesOk, SettledOk, RetriesOk, FlightsOk,
         CallsOk, HoldersOk, ChainOk, LaneOk, BindingOk, OrderOk, SubmissionOrderOk, NoReturnOk, StopsOk, QuietOk;
  }
}
