/**
 * The relay as the object it is: state updated statement by statement, in the source's order.
 * `trace` is the run so far, and every handler takes exactly the step `RelayState.Step` says,
 * so the theorems about runs hold of this object.
 */
module BrowserRelay {
  import opened Options
  import opened RelayInvariants
  import opened RelayState
  import opened RelayTheorems
  import opened RelayDispatch
  import opened RelayHistory
  import opened RelayVerdicts

  // ---------------------------------------------------------------- the loop of rejectPending

  /** After the entries in `done` have been failed, before `conn.pending.clear()`. */
  ghost function Partly(r: Relay, c: ConnId, done: set<CommandId>): Relay {
    var p := PendingOf(r, c);
    r.(timers := r.timers - done,
       settled := r.settled + multiset(done),
       answers := Told(r.answers, done, Aborted),
       retries := r.retries[c := r.retries[c] + |DeliveriesOf(p) * done|],
       phase := FinishAll(r.phase, JobsAmong(p, done)))
  }

  ghost function JobsAmong(p: map<CommandId, Pending>, done: set<CommandId>): set<JobId> {
    set id | id in done && id in p && JobIn(p[id].resolver).Some? :: JobIn(p[id].resolver).value
  }

  lemma NothingYet(r: Relay, c: ConnId)
    ensures Partly(r, c, {}) == r
  {
    hide FinishAll, JobsAmong, DeliveriesOf;
    NothingInTables(PendingOf(r, c), r.timers, r.settled, r.retries, r.phase, c);
    TellNobody(r.answers);
    hide Told;
  }

  lemma TellNobody(answers: map<CommandId, Answer>)
    ensures Told(answers, {}, Aborted) == answers
  {
  }

  lemma NothingInTables(p: map<CommandId, Pending>, timers: map<CommandId, ConnId>, settled: multiset<CommandId>,
                        retries: multiset<ConnId>, phase: map<JobId, Phase>, c: ConnId)
    ensures timers - {} == timers && settled + multiset({}) == settled
    ensures retries[c := retries[c] + |DeliveriesOf(p) * {}|] == retries
    ensures FinishAll(phase, JobsAmong(p, {})) == phase
  {
    assert JobsAmong(p, {}) == {};
  }

  lemma AllOfThem(r: Relay, c: ConnId)
    ensures var q := Partly(r, c, PendingOf(r, c).Keys); q.(pending := q.pending[c := map[]]) == RejectPending(r, c)
  {
    hide FinishAll, JobsAmong, DeliveriesOf, JobsOf, Told;
    AllInTables(PendingOf(r, c));
  }

  lemma AllInTables(p: map<CommandId, Pending>)
    ensures JobsAmong(p, p.Keys) == JobsOf(p) && DeliveriesOf(p) * p.Keys == DeliveriesOf(p)
  {
  }

  lemma OneMoreTimer(timers: map<CommandId, ConnId>, settled: multiset<CommandId>, done: set<CommandId>, id: CommandId)
    requires id !in done
    ensures timers - (done + {id}) == timers - done - {id}
    ensures settled + multiset(done + {id}) == settled + multiset(done) + multiset{id}
  {
  }

  lemma OneMoreTold(answers: map<CommandId, Answer>, done: set<CommandId>, id: CommandId)
    ensures Told(answers, done + {id}, Aborted) == Told(answers, done, Aborted)[id := Aborted]
  {
  }

  lemma OneMoreDelivery(p: map<CommandId, Pending>, retries: multiset<ConnId>, c: ConnId, done: set<CommandId>, id: CommandId)
    requires id in p && id !in done
    ensures
      var before := retries[c := retries[c] + |DeliveriesOf(p) * done|];
      retries[c := retries[c] + |DeliveriesOf(p) * (done + {id})|] == if p[id].resolver.Delivery? then before + multiset{c} else before
  {
    var d := DeliveriesOf(p) * done;
    if p[id].resolver.Delivery? {
      assert DeliveriesOf(p) * (done + {id}) == d + {id};
      assert id !in d;
    } else {
      assert DeliveriesOf(p) * (done + {id}) == d;
    }
  }

  lemma OneMoreJob(p: map<CommandId, Pending>, phase: map<JobId, Phase>, done: set<CommandId>, id: CommandId)
    requires id in p
    ensures
      FinishAll(phase, JobsAmong(p, done + {id})) == WithPhase(FinishAll(phase, JobsAmong(p, done)), JobIn(p[id].resolver), Done)
  {
    match JobIn(p[id].resolver) {
      case Some(j) => assert JobsAmong(p, done + {id}) == JobsAmong(p, done) + {j};
      case None => assert JobsAmong(p, done + {id}) == JobsAmong(p, done);
    }
  }

  lemma OneMore(r: Relay, c: ConnId, done: set<CommandId>, id: CommandId)
    requires id in PendingOf(r, c) && id !in done
    ensures
      var q := Partly(r, c, done);
      var resolver := PendingOf(r, c)[id].resolver;
      Partly(r, c, done + {id}) ==
      q.(timers := q.timers - {id},
         settled := q.settled + multiset{id},
         answers := q.answers[id := Aborted],
         retries := if resolver.Delivery? then q.retries + multiset{c} else q.retries,
         phase := WithPhase(q.phase, JobIn(resolver), Done))
  {
    hide Told, FinishAll, JobsAmong, DeliveriesOf;
    OneMoreTimer(r.timers, r.settled, done, id);
    OneMoreTold(r.answers, done, id);
    OneMoreDelivery(PendingOf(r, c), r.retries, c, done, id);
    OneMoreJob(PendingOf(r, c), r.phase, done, id);
  }

  lemma RejectLeavesRegistry(r: Relay, c: ConnId)
    ensures
      var q := RejectPending(r, c);
      q.conns == r.conns && q.byConnection == r.byConnection && q.bySocket == r.bySocket && q.closed == r.closed
      && q.lastSeenAt == r.lastSeenAt
  {
  }

  lemma OrderOfDisconnect(r: Relay, c: ConnId, s: Socket)
    ensures RejectPending(Unregister(r, s), c) == Unregister(RejectPending(r, c), s)
  {
    hide FinishAll, JobsOf, DeliveriesOf, WithoutSocket, Get, Told;
  }

  class BrowserRelay {
    var s: Relay
    ghost var trace: seq<Event>

    ghost predicate Valid()
      reads this
    {
      s == Exec(EMPTY, trace)
    }

    constructor ()
      ensures Valid() && trace == []
    {
      s, trace := EMPTY, [];
    }

    /** `rejectPending`: disarm each entry's timer, call its stored `resolve` with a failure, then clear the table. */
    method RejectPending(c: ConnId)
      modifies this`s
      ensures s == RelayState.RejectPending(old(s), c)
    {
      hide RelayState.RejectPending, Partly, DeliveriesOf, JobsOf, FinishAll, JobsAmong, Told;
      var p := PendingOf(s, c);
      var todo := p.Keys;
      ghost var r := s;
      NothingYet(r, c);
      assert p.Keys - todo == {};
      while todo != {}
        invariant todo <= p.Keys && s == Partly(r, c, p.Keys - todo)
      {
        var id :| id in todo;
        OneMore(r, c, p.Keys - todo, id);
        s := s.(timers := s.timers - {id}, settled := s.settled + multiset{id}, answers := s.answers[id := Aborted]);
        match p[id].resolver {
          case Delivery => s := s.(retries := s.retries + multiset{c});
          case Call(_, None) =>
          case Call(_, Some(j)) => s := s.(phase := s.phase[j := Done]);
        }
        assert p.Keys - todo + {id} == p.Keys - (todo - {id});
        todo := todo - {id};
      }
      assert p.Keys - todo == p.Keys;
      AllOfThem(r, c);
      s := s.(pending := s.pending[c := map[]]);
    }

    /** `handleDisconnect`, and `revoke` apart from its `socket.close`. */
    method HandleDisconnect(socket: Socket)
      modifies this`s
      ensures s == Disconnect(old(s), socket)
    {
      hide RelayState.RejectPending;
      ghost var r := s;
      s := s.(closed := s.closed + {socket});
      if socket !in s.bySocket {
        assert s == Disconnect(r, socket);
        return;
      }
      var c := s.bySocket[socket];
      s := s.(bySocket := s.bySocket - {socket});
      if c in s.conns {
        var key := s.conns[c].key;
        if key in s.byConnection && s.byConnection[key] in s.conns && s.conns[s.byConnection[key]].socket == socket {
          s := s.(byConnection := s.byConnection - {key});
        }
      }
      assert s == Unregister(r, socket);
      OrderOfDisconnect(r, c, socket);
      RejectPending(c);
    }

    /** An `await`: what the closure captured waits for the authority's verdict. */
    method Suspend(f: Flight)
      modifies this`s
      ensures s == AddFlight(old(s), f)
    {
      s := s.(flights := s.flights[s.next := f]);
      s := s.(next := s.next + 1);
    }

    // ---------------------------------------------------------------- sending

    /** Arm a timer, store the entry and send the frame. */
    method Issue(c: ConnId, op: Op, taskId: Option<TaskId>, epoch: Option<nat>, resolver: Resolver)
      modifies this`s
      ensures s == RelayState.Issue(old(s), c, op, taskId, epoch, resolver)
    {
      hide PendingOf, WithPhase;
      var id := s.next;
      var pending := PendingOf(s, c);
      s := s.(next := id + 1, timers := s.timers[id := c]);
      s := s.(pending := s.pending[c := pending[id := Pending(op, resolver)]]);
      s := s.(issued := s.issued[id := Sent(c, op, taskId, epoch, resolver)]);
      MoveJob(JobIn(resolver), OnWire(id));
    }

    method MoveJob(job: Option<JobId>, next: Phase)
      modifies this`s
      ensures s == old(s).(phase := WithPhase(old(s).phase, job, next))
    {
      if job.Some? {
        s := s.(phase := s.phase[job.value := next]);
      }
    }

    /** `deliverPendingStop`. */
    method DeliverPendingStop(c: ConnId, key: Key)
      modifies this`s
      ensures s == RelayState.DeliverPendingStop(old(s), c, key)
    {
      if key in s.pendingStops {
        Issue(c, Stop, None, None, Delivery);
      }
    }

    /** A `dispatchCommand` call returns: whoever is queued behind it may start. */
    method Return(job: Option<JobId>)
      modifies this`s
      ensures s == Finish(old(s), job)
    {
      MoveJob(job, Done);
    }

    /** The end of `dispatchBoundCommand`: the fill capability, then the frame. */
    method Send(c: ConnId, conn: Conn, cmd: Command)
      modifies this`s
      ensures s == RelayState.Send(old(s), c, conn.fillAllowed, cmd)
    {
      if cmd.op == FillReference && !conn.fillAllowed {
        Return(cmd.job);
      } else {
        Issue(c, cmd.op, cmd.taskId, Get(s.controlEpoch, c, None), Call(cmd.taskId.Some?, cmd.job));
      }
    }

    /** `dispatchBoundCommand` after its authority check: the task binding, then `Send`.  One frame at most, see `SentOrNot`. */
    method BindAndSend(c: ConnId, conn: Conn, cmd: Command)
      modifies this`s
      ensures s == RelayState.BindAndSend(old(s), c, conn, cmd)
      ensures SentOrNot(old(s), s, c, conn, cmd)
    {
      BindAndSendMeans(s, c, conn, cmd);
      hide RelayState.RejectPending, SentOrNot;
      var b := BindingOf(s, c);
      if cmd.taskId.None? {
        if b.activeTaskId.Some? || b.retiredTaskIds != {} { Return(cmd.job); return; }
      } else {
        var t := cmd.taskId.value;
        if t in b.retiredTaskIds && !(cmd.op == Stop && b.activeTaskId == Some(t)) { Return(cmd.job); return; }
        if b.activeTaskId != Some(t) {
          if cmd.op != Navigate && cmd.op != OpenTab { Return(cmd.job); return; }
          if PendingOf(s, c) != map[] { Return(cmd.job); return; }
          if b.activeTaskId.Some? {
            b := b.(retiredTaskIds := b.retiredTaskIds + {b.activeTaskId.value});
          }
          if |b.retiredTaskIds| >= RETIRED_LIMIT {
            s := s.(binding := s.binding[c := b]);
            HandleDisconnect(conn.socket);
            Return(cmd.job);
            return;
          }
          b := b.(activeTaskId := Some(t));
          s := s.(binding := s.binding[c := b]);
        }
        if cmd.op == Stop {
          b := b.(retiredTaskIds := b.retiredTaskIds + {t});
          s := s.(binding := s.binding[c := b]);
        }
      }
      Send(c, conn, cmd);
    }

    /** A Stop for a profile with no connection stays for the next one. */
    method KeepStop(key: Key)
      modifies this`s
      ensures s == QueueStop(old(s), key)
    {
      s := s.(pendingStops := s.pendingStops + {key});
      s := s.(terminalByConnection := s.terminalByConnection[key := Stopped]);
    }

    /** `dispatchBoundCommand` up to its first `await`.  Nothing but Stop goes out unasked, see `AskedFirst`. */
    method DispatchBoundCommand(cmd: Command)
      modifies this`s
      ensures s == DispatchBound(old(s), cmd)
      ensures AskedFirst(old(s), s, cmd)
    {
      DispatchBoundMeans(s, cmd);
      hide RelayState.BindAndSend, AddFlight, AskedFirst, SentOrNot, QueueStop, Finish;
      if cmd.key !in s.byConnection || s.byConnection[cmd.key] !in s.conns {
        if cmd.op == Stop && cmd.taskId.None? { KeepStop(cmd.key); }
        Return(cmd.job);
        return;
      }
      var c := s.byConnection[cmd.key];
      if cmd.op == Stop {
        BindAndSend(c, s.conns[c], cmd);
      } else {
        if cmd.job.Some? {
          s := s.(phase := s.phase[cmd.job.value := Checking(s.next)]);
        }
        Suspend(DispatchFlight(c, cmd));
      }
    }

    // ---------------------------------------------------------------- handlers

    /** One event has been handled. */
    ghost method Record(e: Event, before: Relay)
      requires before == Exec(EMPTY, trace) && s == Step(before, e)
      modifies this`trace
      ensures Valid() && trace == old(trace) + [e]
    {
      ExecAppend(EMPTY, trace, e);
      trace := trace + [e];
    }

    /** `handleMessage` for a hello, up to its `await`. */
    method HandleHello(socket: Socket, identity: Option<Key>, fillAllowed: bool)
      requires Valid()
      modifies this
      ensures Valid() && trace == old(trace) + [Hello(socket, identity, fillAllowed)]
    {
      ghost var r := s;
      hide RelayState.Disconnect, AddFlight;
      if socket !in s.closed {
        if socket in s.bySocket || socket in s.admitting {
          HandleDisconnect(socket);
        } else if identity.Some? {
          s := s.(admitting := s.admitting + {socket});
          Suspend(HelloFlight(socket, identity.value, fillAllowed));
        }
      }
      Record(Hello(socket, identity, fillAllowed), r);
    }

    /** The rest of the hello: replace the connection of this profile, register, deliver a queued Stop. */
    method FinishHello(f: FlightId, admitted: bool, now: int)
      requires Valid()
      modifies this
      ensures Valid() && trace == old(trace) + [Admitted(f, admitted, now)]
    {
      ghost var r := s;
      if f in s.flights && s.flights[f].HelloFlight? {
        var HelloFlight(socket, key, fillAllowed) := s.flights[f];
        Admit(f, socket, key, fillAllowed, admitted, now);
      }
      hide HelloResume;
      Record(Admitted(f, admitted, now), r);
    }

    method Admit(f: FlightId, socket: Socket, key: Key, fillAllowed: bool, admitted: bool, now: int)
      requires Valid() && f in s.flights && s.flights[f] == HelloFlight(socket, key, fillAllowed)
      modifies this`s
      ensures s == HelloResume(old(s), f, admitted, now)
    {
      hide RelayState.Disconnect, RelayState.Register, SetTerminal, RelayState.DeliverPendingStop, Exec;
      ReachableIsConsistent(trace, key);
      s := s.(flights := s.flights - {f}, admitting := s.admitting - {socket});
      if !admitted { HandleDisconnect(socket); return; }
      if socket in s.closed { return; }
      ghost var r := s;
      Replace(socket, key);
      var c := s.next;
      Register(socket, key, fillAllowed, now);
      ReplacedIsForgotten(r, socket, key, fillAllowed, now);
      if key in s.pendingStops {
        ReportTerminal(c, key, Stopped);
        DeliverPendingStop(c, key);
      }
    }

    /** Close the connection this profile already has on another socket; its table entry is overwritten next. */
    method Replace(socket: Socket, key: Key)
      requires key in s.byConnection ==> Consistent(s, key)
      modifies this`s
      ensures s == Replaced(old(s), socket, key).(byConnection := old(s.byConnection))
    {
      hide RelayState.RejectPending;
      if key in s.byConnection && s.conns[s.byConnection[key]].socket != socket {
        var existing := s.byConnection[key];
        RejectLeavesRegistry(s, existing);
        RejectPending(existing);
        s := s.(bySocket := s.bySocket - {s.conns[existing].socket});
        s := s.(closed := s.closed + {s.conns[existing].socket});
      }
    }

    /** Build the fresh connection and put it in both registries. */
    method Register(socket: Socket, key: Key, fillAllowed: bool, now: int)
      modifies this`s
      ensures s == RelayState.Register(old(s), socket, key, fillAllowed, now)
    {
      var c := s.next;
      s := s.(conns := s.conns[c := Conn(key, socket, fillAllowed)], next := c + 1);
      s := s.(pending := s.pending[c := map[]], binding := s.binding[c := Binding(None, {})]);
      s := s.(terminalEvent := s.terminalEvent[c := Lookup(s.terminalByConnection, key)]);
      s := s.(controlEpoch := s.controlEpoch[c := None], lastSeenAt := s.lastSeenAt[c := now]);
      s := s.(byConnection := s.byConnection[key := c]);
      s := s.(bySocket := s.bySocket[socket := c]);
    }

    /** `stopped` or `tab_closed`, on the connection and in the per-profile table. */
    method ReportTerminal(c: ConnId, key: Key, event: Terminal)
      modifies this`s
      ensures s == SetTerminal(old(s), c, key, Some(event))
    {
      s := s.(terminalEvent := s.terminalEvent[c := Some(event)]);
      s := s.(terminalByConnection := s.terminalByConnection[key := event]);
    }

    /** A command that worked ends the report. */
    method ClearTerminal(c: ConnId, key: Key)
      modifies this`s
      ensures s == SetTerminal(old(s), c, key, None) && s.pending == old(s.pending)
    {
      s := s.(terminalEvent := s.terminalEvent[c := None]);
      s := s.(terminalByConnection := s.terminalByConnection - {key});
    }

    /** `handleMessage` for a ping, up to its `await`. */
    method HandlePing(socket: Socket, now: int)
      requires Valid()
      modifies this
      ensures Valid() && trace == old(trace) + [Ping(socket, now)]
    {
      ghost var r := s;
      var receiver := Receiver(s, socket);
      if receiver.Some? {
        s := s.(lastSeenAt := s.lastSeenAt[receiver.value := now]);
        Suspend(PingFlight(receiver.value));
      }
      Record(Ping(socket, now), r);
    }

    /** The part every answered command shares: leave the table, disarm the timer, run `resolve`. */
    method Answer(c: ConnId, key: Key, id: CommandId, answer: Answer)
      requires id in PendingOf(s, c)
      modifies this`s
      ensures s == Settle(old(s), c, key, id, answer)
    {
      var resolver := PendingOf(s, c)[id].resolver;
      s := s.(pending := s.pending[c := PendingOf(s, c) - {id}]);
      s := s.(timers := s.timers - {id}, settled := s.settled + multiset{id}, answers := s.answers[id := answer]);
      match resolver {
        case Delivery =>
          match answer {
            case AnsweredOk => s := s.(pendingStops := s.pendingStops - {key});
            case AnsweredFailed => s := s.(retries := s.retries + multiset{c});
            case _ =>
          }
        case Call(_, job) => Return(job);
      }
    }

    /** `handleMessage` for a result: a Stop is settled before the authority is asked, anything else after. */
    method HandleResult(socket: Socket, id: CommandId, ok: bool, now: int)
      requires Valid()
      modifies this
      ensures Valid() && trace == old(trace) + [Result(socket, id, ok, now)]
    {
      ghost var r := s;
      ReceiveResult(socket, id, ok, now);
      hide ResultFrame;
      Record(Result(socket, id, ok, now), r);
    }

    method ReceiveResult(socket: Socket, id: CommandId, ok: bool, now: int)
      modifies this`s
      ensures s == ResultFrame(old(s), socket, id, ok, now)
    {
      hide Settle, AddFlight;
      var receiver := Receiver(s, socket);
      if receiver.None? { return; }
      var c := receiver.value;
      var key := s.conns[c].key;
      s := s.(lastSeenAt := s.lastSeenAt[c := now]);
      if id in PendingOf(s, c) && PendingOf(s, c)[id].op == Stop && Current(s, c) {
        if ok {
          Answer(c, key, id, AnsweredOk);
          ReportTerminal(c, key, Stopped);
        } else {
          Answer(c, key, id, AnsweredFailed);
        }
        Suspend(SafetyFlight(c));
      } else {
        Suspend(ResultFlight(c, id, ok));
      }
    }

    /** `handleMessage` for an event: it fails everything in flight on the connection. */
    method HandleEvent(socket: Socket, kind: EventKind, epoch: Option<nat>, now: int)
      requires Valid()
      modifies this
      ensures Valid() && trace == old(trace) + [ExtensionEvent(socket, kind, epoch, now)]
    {
      ghost var r := s;
      ReceiveEvent(socket, kind, epoch, now);
      hide EventFrame;
      Record(ExtensionEvent(socket, kind, epoch, now), r);
    }

    method ReceiveEvent(socket: Socket, kind: EventKind, epoch: Option<nat>, now: int)
      modifies this`s
      ensures s == EventFrame(old(s), socket, kind, epoch, now)
    {
      hide RelayState.RejectPending;
      var receiver := Receiver(s, socket);
      if receiver.None? { return; }
      var c := receiver.value;
      s := s.(lastSeenAt := s.lastSeenAt[c := now]);
      if kind.EvStopped? && epoch.Some? {
        s := s.(controlEpoch := s.controlEpoch[c := epoch]);
      }
      if kind.EvStopped? {
        ReportTerminal(c, s.conns[c].key, Stopped);
      } else if kind.EvTabClosed? {
        ReportTerminal(c, s.conns[c].key, TabClosed);
      }
      RejectPending(c);
    }

    /** The authority's verdict reaches the handler that awaited it. */
    method Resume(f: FlightId, allowed: bool)
      requires Valid()
      modifies this
      ensures Valid() && trace == old(trace) + [Checked(f, allowed)]
      ensures old(f in s.flights && !s.flights[f].HelloFlight?) && !allowed ==>
        s.issued == old(s.issued) && Dead(s, old(s.flights[f]).conn)
    {
      ghost var r := s;
      if f in s.flights && !s.flights[f].HelloFlight? && !allowed { DeniedIsDead(trace, f, []); }
      if f in s.flights && !s.flights[f].HelloFlight? && s.flights[f].conn in s.conns {
        AfterCheck(f, allowed);
      }
      hide CheckResume;
      Record(Checked(f, allowed), r);
    }

    method AfterCheck(f: FlightId, allowed: bool)
      requires f in s.flights && !s.flights[f].HelloFlight? && s.flights[f].conn in s.conns
      modifies this`s
      ensures s == CheckResume(old(s), f, allowed)
    {
      hide RelayState.Disconnect, RelayState.BindAndSend, Settle, Current, SetTerminal;
      var flight := s.flights[f];
      var c := flight.conn;
      var conn := s.conns[c];
      s := s.(flights := s.flights - {f});
      match flight {
        case PingFlight(_) =>
          if !allowed { HandleDisconnect(conn.socket); }
        case SafetyFlight(_) =>
          if !allowed && Current(s, c) { HandleDisconnect(conn.socket); }
        case RenewFlight(_) =>
          if !allowed && Current(s, c) { HandleDisconnect(conn.socket); }
        case ResultFlight(_, id, ok) =>
          if !allowed {
            HandleDisconnect(conn.socket);
          } else if Current(s, c) && id in PendingOf(s, c) {
            if ok {
              ClearTerminal(c, conn.key);
              Answer(c, conn.key, id, AnsweredOk);
            } else {
              Answer(c, conn.key, id, AnsweredFailed);
            }
          }
        case DispatchFlight(_, cmd) =>
          if cmd.job.Some? {
            s := s.(phase := s.phase[cmd.job.value := Running]);
          }
          if !allowed {
            HandleDisconnect(conn.socket);
            Return(cmd.job);
          } else if !Current(s, c) {
            Return(cmd.job);
          } else {
            BindAndSend(c, conn, cmd);
          }
      }
    }

    /** The socket's own close or error event. */
    method SocketGone(socket: Socket)
      requires Valid()
      modifies this
      ensures Valid() && trace == old(trace) + [SocketClosed(socket)]
    {
      ghost var r := s;
      hide RelayState.Disconnect;
      HandleDisconnect(socket);
      Record(SocketClosed(socket), r);
    }

    // ---------------------------------------------------------------- commands and timers

    /** `dispatchCommand` without a task. */
    method DispatchUnbound(key: Key, op: Op)
      requires Valid()
      modifies this
      ensures Valid() && trace == old(trace) + [CallUnbound(key, op)]
    {
      ghost var r := s;
      DispatchBoundCommand(Command(key, None, op, None));
      hide DispatchBound;
      Record(CallUnbound(key, op), r);
    }

    /** The `dispatch` closure of `dispatchCommand`. */
    method Dispatch(j: JobId)
      requires j in s.jobs
      modifies this`s
      ensures s == RunJob(old(s), j)
    {
      hide DispatchBound;
      var job := s.jobs[j];
      if Lookup(s.byConnection, job.key) == job.connection {
        DispatchBoundCommand(Command(job.key, Some(job.taskId), job.op, Some(j)));
      } else {
        Return(Some(j));
      }
    }

    /** `dispatchCommand` with a task: queue behind the profile's tail, or run at once. */
    method DispatchCommand(key: Key, taskId: TaskId, op: Op)
      requires Valid()
      modifies this
      ensures Valid() && trace == old(trace) + [CallBound(key, taskId, op)]
    {
      ghost var r := s;
      Enqueue(key, taskId, op);
      hide Submit;
      Record(CallBound(key, taskId, op), r);
    }

    method Enqueue(key: Key, taskId: TaskId, op: Op)
      modifies this`s
      ensures s == Submit(old(s), key, taskId, op)
    {
      hide RunJob, AddJob;
      var previous := Lookup(s.commandTails, key);
      var j := Append(key, taskId, op, previous);
      if previous.None? {
        Dispatch(j);
      }
    }

    /** The call becomes its profile's tail. */
    method Append(key: Key, taskId: TaskId, op: Op, previous: Option<JobId>) returns (j: JobId)
      requires previous == Lookup(s.commandTails, key)
      modifies this`s
      ensures j == old(s).next && j in s.jobs && s == AddJob(old(s), key, taskId, op)
    {
      j := s.next;
      s := s.(next := j + 1, jobs := s.jobs[j := Job(key, Lookup(s.byConnection, key), taskId, op, previous)]);
      s := s.(commandTails := s.commandTails[key := j]);
      s := s.(phase := s.phase[j := if previous.None? then Running else Waiting]);
    }

    /** `previous.then(dispatch)` runs. */
    method TailSettled(j: JobId)
      requires Valid()
      modifies this
      ensures Valid() && trace == old(trace) + [TailResolved(j)]
    {
      ghost var r := s;
      hide RunJob;
      if MayStart(s, j) {
        s := s.(phase := s.phase[j := Running]);
        Dispatch(j);
      }
      Record(TailResolved(j), r);
    }

    /** The `finally` of `dispatchCommand`: forget the tail unless a newer call has replaced it. */
    method ForgetTail(j: JobId)
      requires Valid()
      modifies this
      ensures Valid() && trace == old(trace) + [TailForgotten(j)]
    {
      ghost var r := s;
      if j in s.jobs && PhaseOf(s, j).Done? && Lookup(s.commandTails, s.jobs[j].key) == Some(j) {
        s := s.(commandTails := s.commandTails - {s.jobs[j].key});
      }
      Record(TailForgotten(j), r);
    }

    /** The `retry` closure of `deliverPendingStop`. */
    method TryAgain(c: ConnId)
      modifies this`s
      ensures s == Retry(old(s), c)
    {
      hide RelayState.DeliverPendingStop;
      if IsRegistered(s, c) {
        DeliverPendingStop(c, s.conns[c].key);
      }
    }

    /** A command timer fires. */
    method CommandExpired(id: CommandId)
      requires Valid()
      modifies this
      ensures Valid() && trace == old(trace) + [TimerFired(id)]
    {
      ghost var r := s;
      if Armed(s, id) {
        Expire(id);
      }
      hide CommandTimeout;
      Record(TimerFired(id), r);
    }

    method Expire(id: CommandId)
      requires Armed(s, id)
      modifies this`s
      ensures s == CommandTimeout(old(s), id)
    {
      hide Settle, Retry, RelayState.Disconnect;
      var c := s.timers[id];
      var conn := s.conns[c];
      var resolver := PendingOf(s, c)[id].resolver;
      Answer(c, conn.key, id, Expired);
      match resolver {
        case Delivery => TryAgain(c);
        case Call(bound, _) => if bound { HandleDisconnect(conn.socket); }
      }
    }

    /** The one-second timer of a refused Stop fires. */
    method RetryExpired(c: ConnId)
      requires Valid()
      modifies this
      ensures Valid() && trace == old(trace) + [RetryFired(c)]
    {
      ghost var r := s;
      hide Retry;
      if c in s.retries {
        s := s.(retries := s.retries - multiset{c});
        TryAgain(c);
      }
      Record(RetryFired(c), r);
    }

    // ---------------------------------------------------------------- the periodic loops

    /** `renewAuthority`: ask about every registered connection. */
    method RenewAuthority()
      requires Valid()
      modifies this
      ensures Valid() && s.byConnection == old(s.byConnection)
      ensures forall k <- s.byConnection :: AskedFor(s.flights, s.byConnection[k])
    {
      hide Exec, AskedFor, Valid;
      var snapshot := s.byConnection;
      var todo := snapshot.Keys;
      while todo != {}
        invariant Valid() && todo <= snapshot.Keys && s.byConnection == snapshot
        invariant forall k <- snapshot :: k !in todo ==> AskedFor(s.flights, snapshot[k])
      {
        var k :| k in todo;
        Ask(k);
        todo := todo - {k};
      }
    }

    /** One connection of `renewAuthority`. */
    method Ask(k: Key)
      requires Valid() && k in s.byConnection
      modifies this
      ensures Valid() && s.byConnection == old(s.byConnection)
      ensures AskedFor(s.flights, s.byConnection[k])
      ensures forall c: ConnId :: AskedFor(old(s.flights), c) ==> AskedFor(s.flights, c)
    {
      hide Exec, Step, AskedFor;
      ghost var r := s;
      ReachableIsConsistent(trace, k);
      RenewStep(s, k);
      NextIsFresh(trace);
      Suspend(RenewFlight(s.byConnection[k]));
      OneMoreAsked(r.flights, r.next, s.byConnection[k]);
      Record(Renew(s.byConnection[k]), r);
    }

    /** `sweepDead`: exactly the connections silent past the window are closed, and counted. */
    method SweepDead(now: int) returns (closed: nat)
      requires Valid()
      modifies this
      ensures Valid()
      ensures closed == |Silent(old(s.byConnection), old(s.lastSeenAt), now)|
      ensures s.byConnection == old(s.byConnection) - Silent(old(s.byConnection), old(s.lastSeenAt), now)
    {
      hide Exec, Valid, Silent;
      var snapshot := s.byConnection;
      var todo := snapshot.Keys;
      ghost var lastSeenAt := s.lastSeenAt;
      closed := 0;
      NoneSwept(snapshot, lastSeenAt, now);
      while todo != {}
        invariant Valid() && todo <= snapshot.Keys && s.lastSeenAt == lastSeenAt
        invariant closed == |Silent(snapshot, lastSeenAt, now) - todo|
        invariant s.byConnection == snapshot - (Silent(snapshot, lastSeenAt, now) - todo)
      {
        var k :| k in todo;
        OneSwept(snapshot, lastSeenAt, now, todo, k);
        var silent := SweepOne(k, now);
        if silent {
          closed := closed + 1;
        }
        todo := todo - {k};
      }
      assert Silent(snapshot, lastSeenAt, now) - {} == Silent(snapshot, lastSeenAt, now);
    }

    /** One connection of `sweepDead`. */
    method SweepOne(k: Key, now: int) returns (silent: bool)
      requires Valid() && k in s.byConnection
      modifies this
      ensures Valid() && s.lastSeenAt == old(s.lastSeenAt)
      ensures silent <==> now - Get(old(s.lastSeenAt), old(s.byConnection)[k], 0) > LIVENESS_WINDOW_MS
      ensures s.byConnection == if silent then old(s.byConnection) - {k} else old(s.byConnection)
    {
      hide Exec, Step, RelayState.Disconnect;
      ghost var r := s;
      ReachableIsConsistent(trace, k);
      SweepStep(s, k, now);
      var c := s.byConnection[k];
      silent := now - Get(s.lastSeenAt, c, 0) > LIVENESS_WINDOW_MS;
      if silent {
        DisconnectsOne(s, k);
        HandleDisconnect(s.conns[c].socket);
      }
      Record(Sweep(c, now), r);
    }
  }

  lemma RenewStep(r: Relay, k: Key)
    requires k in r.byConnection && Consistent(r, k)
    ensures Step(r, Renew(r.byConnection[k])) == AddFlight(r, RenewFlight(r.byConnection[k]))
  {
    hide AddFlight;
  }

  lemma SweepStep(r: Relay, k: Key, now: int)
    requires k in r.byConnection && Consistent(r, k)
    ensures
      var c := r.byConnection[k];
      Step(r, Sweep(c, now)) ==
      if now - Get(r.lastSeenAt, c, 0) > LIVENESS_WINDOW_MS then RelayState.Disconnect(r, r.conns[c].socket) else r
  {
    hide RelayState.Disconnect;
  }

  ghost predicate AskedFor(flights: map<FlightId, Flight>, c: ConnId) {
    exists f :: f in flights && flights[f] == RenewFlight(c)
  }

  lemma OneMoreAsked(flights: map<FlightId, Flight>, f: FlightId, c: ConnId)
    requires f !in flights
    ensures AskedFor(flights[f := RenewFlight(c)], c)
    ensures forall d: ConnId :: AskedFor(flights, d) ==> AskedFor(flights[f := RenewFlight(c)], d)
  {
    var grown := flights[f := RenewFlight(c)];
    assert grown[f] == RenewFlight(c);
    forall d: ConnId | AskedFor(flights, d) ensures AskedFor(grown, d) {
      var g :| g in flights && flights[g] == RenewFlight(d);
      assert grown[g] == RenewFlight(d);
    }
  }

  /** The profiles whose connection has been silent past the liveness window. */
  ghost function Silent(byConnection: map<Key, ConnId>, lastSeenAt: map<ConnId, int>, now: int): set<Key> {
    set k | k in byConnection && now - Get(lastSeenAt, byConnection[k], 0) > LIVENESS_WINDOW_MS
  }

  lemma NoneSwept(byConnection: map<Key, ConnId>, lastSeenAt: map<ConnId, int>, now: int)
    ensures Silent(byConnection, lastSeenAt, now) - byConnection.Keys == {}
    ensures byConnection - (Silent(byConnection, lastSeenAt, now) - byConnection.Keys) == byConnection
  {
    assert Silent(byConnection, lastSeenAt, now) - byConnection.Keys == {};
  }

  lemma OneSwept(byConnection: map<Key, ConnId>, lastSeenAt: map<ConnId, int>, now: int, todo: set<Key>, k: Key)
    requires k in todo && todo <= byConnection.Keys
    ensures
      var swept := Silent(byConnection, lastSeenAt, now) - todo;
      var later := Silent(byConnection, lastSeenAt, now) - (todo - {k});
      && k in byConnection - swept && k !in swept
      && if now - Get(lastSeenAt, byConnection[k], 0) > LIVENESS_WINDOW_MS
         then |later| == |swept| + 1 && byConnection - later == byConnection - swept - {k}
         else later == swept
  {
    var swept := Silent(byConnection, lastSeenAt, now) - todo;
    var later := Silent(byConnection, lastSeenAt, now) - (todo - {k});
    if k in Silent(byConnection, lastSeenAt, now) {
      assert later == swept + {k};
    } else {
      assert later == swept;
    }
  }

  lemma DisconnectsOne(r: Relay, k: Key)
    requires k in r.byConnection && Consistent(r, k)
    ensures
      var q := Disconnect(r, r.conns[r.byConnection[k]].socket);
      q.byConnection == r.byConnection - {k} && q.lastSeenAt == r.lastSeenAt && q.conns == r.conns
  {
    hide RelayState.RejectPending;
    RejectLeavesRegistry(r, r.byConnection[k]);
  }

  lemma NextIsFresh(es: seq<Event>)
    ensures Exec(EMPTY, es).next !in Exec(EMPTY, es).flights
  {
    hide Exec;
    ReachableOk(es);
  }

  /** The profile's registered connection is also its socket's. */
  ghost predicate Consistent(r: Relay, k: Key)
    requires k in r.byConnection
  {
    var c := r.byConnection[k];
    c in r.conns && r.conns[c].key == k && Lookup(r.bySocket, r.conns[c].socket) == Some(c)
  }

  lemma ReachableIsConsistent(es: seq<Event>, k: Key)
    ensures k in Exec(EMPTY, es).byConnection ==> Consistent(Exec(EMPTY, es), k)
  {
    hide Exec;
    RegistriesAgree(es);
  }

  /** What `RelayState.HelloResume` does with the connection the profile already has. */
  ghost function Replaced(r: Relay, s: Socket, k: Key): Relay {
    if k in r.byConnection && r.byConnection[k] in r.conns && r.conns[r.byConnection[k]].socket != s
    then Disconnect(r, r.conns[r.byConnection[k]].socket) else r
  }

  /** Registering overwrites the entry that a disconnect would have removed. */
  lemma ReplacedIsForgotten(r: Relay, s: Socket, k: Key, fillAllowed: bool, now: int)
    requires k in r.byConnection ==> Consistent(r, k)
    ensures RelayState.Register(Replaced(r, s, k).(byConnection := r.byConnection), s, k, fillAllowed, now)
            == RelayState.Register(Replaced(r, s, k), s, k, fillAllowed, now)
  {
    hide RelayState.RejectPending;
    if k in r.byConnection { RejectLeavesRegistry(r, r.byConnection[k]); }
    var q := Replaced(r, s, k);
    assert r.byConnection[k := q.next] == q.byConnection[k := q.next];
  }
}
