/** How the relay's past relates to its future: what was sent or settled stays so, and a dead connection stays dead. */
module RelayHistory {
  import opened Options
  import opened RelayState
  import opened RelayInvariants
  import opened RelayProofs
  import opened RelaySteps
  import opened RelayTheorems

  /** A connection that is no longer registered. */
  ghost predicate Dead(r: Relay, c: ConnId) {
    c in r.conns && !Registered(r.conns, r.byConnection, c)
  }

  ghost predicate Known(r: Relay) {
    forall c <- r.conns :: c < r.next
  }

  /** The socket of a connection that is no longer registered is closed. */
  ghost predicate DeadClosed(r: Relay) {
    forall c <- r.conns :: Registered(r.conns, r.byConnection, c) || r.conns[c].socket in r.closed
  }

  ghost predicate SameConns(r: Relay, q: Relay) {
    && r.next <= q.next && r.closed <= q.closed
    && (DeadClosed(r) ==> DeadClosed(q))
    && (forall c <- r.conns :: c in q.conns && q.conns[c] == r.conns[c])
    && (forall c: ConnId :: Dead(r, c) ==> Dead(q, c))
    && (Known(r) ==> Known(q))
  }

  ghost predicate SameFrames(r: Relay, q: Relay) {
    && (forall id <- r.issued :: id in q.issued && q.issued[id] == r.issued[id])
    && (forall id <- q.issued :: id in r.issued || (r.next <= id && !Dead(r, q.issued[id].conn)))
    && r.settled <= q.settled
  }

  /** `id` is one of the relay's own Stop deliveries, outstanding on `c`. */
  predicate IsDelivery(r: Relay, c: ConnId, id: CommandId) {
    c in r.conns && id in PendingOf(r, c) && PendingOf(r, c)[id].resolver.Delivery?
  }

  /** The profile, if any, for which the event is an ok result of an outstanding Stop delivery. */
  function Acknowledged(r: Relay, e: Event): set<Key> {
    match e
    case Result(s, id, true, _) =>
      if Receiver(r, s).Some? && IsDelivery(r, Receiver(r, s).value, id) then {r.conns[Receiver(r, s).value].key} else {}
    case Checked(f, true) =>
      if f in r.flights && r.flights[f].ResultFlight? && r.flights[f].ok && IsDelivery(r, r.flights[f].conn, r.flights[f].id)
      then {r.conns[r.flights[f].conn].key} else {}
    case _ => {}
  }

  /** Queued Stops stay queued, except for profiles in `x`. */
  ghost predicate StopsKept(r: Relay, q: Relay, x: set<Key>) {
    forall k <- r.pendingStops :: k in q.pendingStops || k in x
  }

  /** `q` is a possible future of `r`, in which at most the queued Stops of `x` have gone. */
  ghost predicate Grows(r: Relay, q: Relay, x: set<Key>) {
    SameConns(r, q) && SameFrames(r, q) && StopsKept(r, q, x)
  }

  ghost predicate Future(r: Relay, q: Relay) {
    SameConns(r, q) && SameFrames(r, q)
  }

  lemma FutureThen(a: Relay, b: Relay, c: Relay)
    requires Future(a, b) && Future(b, c)
    ensures Future(a, c)
  {
    hide Dead, Known, DeadClosed;
  }

  lemma StepFuture(r: Relay, e: Event)
    requires Inv(r)
    ensures Future(r, Step(r, e)) && Inv(Step(r, e))
  {
    hide Mid, Step, Acknowledged, SameConns, SameFrames;
    StepKeeps(r, e);
    StepGrows(r, e, Acknowledged(r, e));
  }

  lemma Then(a: Relay, b: Relay, c: Relay, x: set<Key>)
    requires Grows(a, b, x) && Grows(b, c, x)
    ensures Grows(a, c, x)
  {
    hide Dead, Known, DeadClosed;
  }

  lemma Unchanged(r: Relay, q: Relay, x: set<Key>)
    requires q.conns == r.conns && q.byConnection == r.byConnection && q.issued == r.issued
    requires r.settled <= q.settled && r.next <= q.next && StopsKept(r, q, x) && q.closed == r.closed
    ensures Grows(r, q, x)
  {
  }

  lemma DisconnectGrows(r: Relay, s: Socket, x: set<Key>)
    ensures Grows(r, Disconnect(r, s), x)
  {
    var q := Disconnect(r, s);
    hide RejectPending;
    var m := if s in r.bySocket then RejectPending(r, r.bySocket[s]) else r;
    if s in r.bySocket {
      RejectFrame(r, r.bySocket[s], x);
    }
    FewerGrows(m, s, x);
    hide *;
    Then(r, m, q, x);
  }

  lemma RejectFrame(r: Relay, c: ConnId, x: set<Key>)
    ensures Grows(r, RejectPending(r, c), x)
  {
    hide Grows;
    Unchanged(r, RejectPending(r, c), x);
  }

  lemma FewerGrows(m: Relay, s: Socket, x: set<Key>)
    ensures Grows(m, Unregister(m, s), x)
  {
  }

  lemma RegisterGrows(r: Relay, s: Socket, k: Key, fillAllowed: bool, now: int, x: set<Key>)
    requires Known(r) && k !in r.byConnection
    ensures Grows(r, Register(r, s, k, fillAllowed, now), x) && IsRegistered(Register(r, s, k, fillAllowed, now), r.next)
  {
    RegisterConns(r, s, k, fillAllowed, now);
    hide SameConns;
  }

  lemma RegisterConns(r: Relay, s: Socket, k: Key, fillAllowed: bool, now: int)
    requires Known(r) && k !in r.byConnection
    ensures SameConns(r, Register(r, s, k, fillAllowed, now))
  {
    RegisterDead(r, s, k, fillAllowed, now);
    if DeadClosed(r) { RegisterClosed(r, s, k, fillAllowed, now); }
    RegisterTables(r, s, k, fillAllowed, now);
    hide Register, Dead, DeadClosed;
  }

  lemma RegisterTables(r: Relay, s: Socket, k: Key, fillAllowed: bool, now: int)
    ensures var q := Register(r, s, k, fillAllowed, now);
            q.next == r.next + 1 && q.closed == r.closed && q.conns == r.conns[r.next := Conn(k, s, fillAllowed)]
  {
  }

  lemma RegisterDead(r: Relay, s: Socket, k: Key, fillAllowed: bool, now: int)
    requires Known(r) && k !in r.byConnection
    ensures forall c: ConnId :: Dead(r, c) ==> Dead(Register(r, s, k, fillAllowed, now), c)
  {
  }

  lemma RegisterClosed(r: Relay, s: Socket, k: Key, fillAllowed: bool, now: int)
    requires Known(r) && k !in r.byConnection && DeadClosed(r)
    ensures DeadClosed(Register(r, s, k, fillAllowed, now))
  {
  }

  lemma IssueGrows(r: Relay, c: ConnId, op: Op, taskId: Option<TaskId>, epoch: Option<nat>, resolver: Resolver, x: set<Key>)
    requires !Dead(r, c) && r.next !in r.issued
    ensures Grows(r, Issue(r, c, op, taskId, epoch, resolver), x)
  {
  }

  lemma DeliverGrows(r: Relay, c: ConnId, k: Key, x: set<Key>)
    requires !Dead(r, c) && r.next !in r.issued
    ensures Grows(r, DeliverPendingStop(r, c, k), x)
  {
    hide Grows, Issue;
    Unchanged(r, r, x);
    if k in r.pendingStops {
      IssueGrows(r, c, Stop, None, None, Delivery, x);
    }
  }

  lemma RetryGrows(r: Relay, c: ConnId, x: set<Key>)
    requires r.next !in r.issued
    ensures Grows(r, Retry(r, c), x)
  {
    hide Grows, DeliverPendingStop;
    Unchanged(r, r, x);
    if IsRegistered(r, c) {
      DeliverGrows(r, c, r.conns[c].key, x);
    }
  }

  lemma SettleGrows(r: Relay, c: ConnId, k: Key, id: CommandId, answer: Answer, x: set<Key>)
    requires id in PendingOf(r, c)
    requires PendingOf(r, c)[id].resolver.Delivery? && answer.AnsweredOk? ==> k in x
    ensures Grows(r, Settle(r, c, k, id, answer), x)
    ensures Settle(r, c, k, id, answer).issued == r.issued && Settle(r, c, k, id, answer).next == r.next
  {
    hide Grows;
    Unchanged(r, Settle(r, c, k, id, answer), x);
  }

  lemma SendGrows(r: Relay, c: ConnId, fillAllowed: bool, cmd: Command, x: set<Key>)
    requires !Dead(r, c) && r.next !in r.issued
    ensures Grows(r, Send(r, c, fillAllowed, cmd), x)
  {
    hide Grows, Issue;
    Unchanged(r, Finish(r, cmd.job), x);
    IssueGrows(r, c, cmd.op, cmd.taskId, Get(r.controlEpoch, c, None), Call(cmd.taskId.Some?, cmd.job), x);
  }

  lemma BoundSendGrows(r: Relay, c: ConnId, b: Binding, fillAllowed: bool, cmd: Command, x: set<Key>)
    requires !Dead(r, c) && r.next !in r.issued
    ensures Grows(r, Send(SetBinding(r, c, b), c, fillAllowed, cmd), x)
  {
    var m := SetBinding(r, c, b);
    Unchanged(r, m, x);
    hide Grows, Send;
    SendGrows(m, c, fillAllowed, cmd, x);
    Then(r, m, Send(m, c, fillAllowed, cmd), x);
  }

  lemma DisconnectAndFinishGrows(r: Relay, s: Socket, job: Option<JobId>, x: set<Key>)
    ensures Grows(r, Finish(Disconnect(r, s), job), x)
  {
    hide Grows, Disconnect;
    DisconnectGrows(r, s, x);
    Unchanged(Disconnect(r, s), Finish(Disconnect(r, s), job), x);
    Then(r, Disconnect(r, s), Finish(Disconnect(r, s), job), x);
  }

  lemma FullGrows(r: Relay, c: ConnId, b: Binding, s: Socket, job: Option<JobId>, x: set<Key>)
    ensures Grows(r, Finish(Disconnect(SetBinding(r, c, b), s), job), x)
  {
    var m := SetBinding(r, c, b);
    Unchanged(r, m, x);
    hide Grows, Disconnect, Finish;
    DisconnectAndFinishGrows(m, s, job, x);
    Then(r, m, Finish(Disconnect(m, s), job), x);
  }

  lemma BindAndSendGrows(r: Relay, c: ConnId, conn: Conn, cmd: Command, x: set<Key>)
    requires !Dead(r, c) && r.next !in r.issued
    ensures Grows(r, BindAndSend(r, c, conn, cmd), x)
  {
    hide Grows, BindAndSend, Disconnect, Send, SetBinding, Finish, Retire, BindingOf;
    BindCases(r, c, conn, cmd);
    var b := BindingOf(r, c);
    FinishGrows(r, cmd.job, x);
    SendGrows(r, c, conn.fillAllowed, cmd, x);
    if cmd.taskId.Some? {
      FullGrows(r, c, b.(retiredTaskIds := Retire(b)), conn.socket, cmd.job, x);
      BoundSendGrows(r, c, Binding(cmd.taskId, Retire(b)), conn.fillAllowed, cmd, x);
      BoundSendGrows(r, c, b.(retiredTaskIds := b.retiredTaskIds + {cmd.taskId.value}), conn.fillAllowed, cmd, x);
    }
  }

  /** The five things `dispatchBoundCommand` may do after its check: nothing, send, revoke, rebind and send, retire and send. */
  lemma BindCases(r: Relay, c: ConnId, conn: Conn, cmd: Command)
    ensures
      var q, b := BindAndSend(r, c, conn, cmd), BindingOf(r, c);
      || q == Finish(r, cmd.job) || q == Send(r, c, conn.fillAllowed, cmd)
      || (cmd.taskId.Some? && q == Finish(Disconnect(SetBinding(r, c, b.(retiredTaskIds := Retire(b))), conn.socket), cmd.job))
      || (cmd.taskId.Some? && q == Send(SetBinding(r, c, Binding(cmd.taskId, Retire(b))), c, conn.fillAllowed, cmd))
      || (cmd.taskId.Some? && q == Send(SetBinding(r, c, b.(retiredTaskIds := b.retiredTaskIds + {cmd.taskId.value})), c, conn.fillAllowed, cmd))
  {
    hide Disconnect, Send, SetBinding, Finish, Retire, BindingOf, PendingOf;
  }

  lemma FinishGrows(r: Relay, job: Option<JobId>, x: set<Key>)
    ensures Grows(r, Finish(r, job), x)
  {
    hide Grows;
    Unchanged(r, Finish(r, job), x);
  }

  lemma QueueStopGrows(r: Relay, k: Key, job: Option<JobId>, x: set<Key>)
    ensures Grows(r, Finish(QueueStop(r, k), job), x)
  {
    hide Grows;
    Unchanged(r, Finish(QueueStop(r, k), job), x);
  }

  lemma CheckGrows(r: Relay, job: Option<JobId>, f: Flight, x: set<Key>)
    ensures Grows(r, AddFlight(r.(phase := WithPhase(r.phase, job, Checking(r.next))), f), x)
  {
    hide Grows, WithPhase;
    Unchanged(r, AddFlight(r.(phase := WithPhase(r.phase, job, Checking(r.next))), f), x);
  }

  lemma DispatchBoundGrows(r: Relay, cmd: Command, x: set<Key>)
    requires r.next !in r.issued
    requires cmd.key in r.byConnection ==> !Dead(r, r.byConnection[cmd.key])
    ensures Grows(r, DispatchBound(r, cmd), x)
  {
    hide Grows, BindAndSend, Finish, QueueStop, AddFlight, WithPhase;
    if cmd.key !in r.byConnection || r.byConnection[cmd.key] !in r.conns {
      FinishGrows(r, cmd.job, x);
      QueueStopGrows(r, cmd.key, cmd.job, x);
    } else if cmd.op != Stop {
      CheckGrows(r, cmd.job, DispatchFlight(r.byConnection[cmd.key], cmd), x);
    } else {
      BindAndSendGrows(r, r.byConnection[cmd.key], r.conns[r.byConnection[cmd.key]], cmd, x);
    }
  }

  lemma RunJobGrows(m: Relay, j: JobId, x: set<Key>)
    requires m.next !in m.issued && j in m.jobs
    requires m.jobs[j].key in m.byConnection ==> !Dead(m, m.byConnection[m.jobs[j].key])
    ensures Grows(m, RunJob(m, j), x)
  {
    hide Grows, DispatchBound;
    var job := m.jobs[j];
    Unchanged(m, Finish(m, Some(j)), x);
    DispatchBoundGrows(m, Command(job.key, Some(job.taskId), job.op, Some(j)), x);
  }

  lemma StartGrows(r: Relay, j: JobId, x: set<Key>)
    requires r.next !in r.issued && j in r.jobs
    requires r.jobs[j].key in r.byConnection ==> !Dead(r, r.byConnection[r.jobs[j].key])
    ensures Grows(r, RunJob(SetRunning(r, Some(j)), j), x)
  {
    var m := SetRunning(r, Some(j));
    Unchanged(r, m, x);
    hide Grows, RunJob;
    RunJobGrows(m, j, x);
    Then(r, m, RunJob(m, j), x);
  }

  lemma SubmitGrows(r: Relay, k: Key, t: TaskId, op: Op, x: set<Key>)
    requires r.next !in r.issued && r.next + 1 !in r.issued
    requires k in r.byConnection ==> !Dead(r, r.byConnection[k])
    ensures Grows(r, Submit(r, k, t, op), x)
  {
    var m := AddJob(r, k, t, op);
    Unchanged(r, m, x);
    hide Grows, RunJob;
    if k !in r.commandTails {
      RunJobGrows(m, r.next, x);
      Then(r, m, RunJob(m, r.next), x);
    }
  }

  lemma TimeoutGrows(r: Relay, id: CommandId, x: set<Key>)
    requires Armed(r, id) && r.next !in r.issued
    ensures Grows(r, CommandTimeout(r, id), x)
  {
    var c := r.timers[id];
    hide Grows, Settle, Retry, Disconnect;
    var m := Settle(r, c, r.conns[c].key, id, Expired);
    SettleGrows(r, c, r.conns[c].key, id, Expired, x);
    match PendingOf(r, c)[id].resolver {
      case Delivery =>
        RetryGrows(m, c, x);
        Then(r, m, Retry(m, c), x);
      case Call(bound, _) =>
        if bound {
          DisconnectGrows(m, r.conns[c].socket, x);
          Then(r, m, Disconnect(m, r.conns[c].socket), x);
        }
    }
  }

  // ---------------------------------------------------------------- whole steps

  lemma HelloResumeGrows(r0: Relay, f: FlightId, admitted: bool, now: int, x: set<Key>)
    requires Inv(r0) && f in r0.flights && r0.flights[f].HelloFlight?
    ensures Grows(r0, HelloResume(r0, f, admitted, now), x)
  {
    hide Mid, Grows, Disconnect, Register, SetTerminal, DeliverPendingStop;
    var HelloFlight(s, k, fillAllowed) := r0.flights[f];
    var r := r0.(flights := r0.flights - {f}, admitting := r0.admitting - {s});
    Unchanged(r0, r, x);
    DisconnectGrows(r, s, x);
    Then(r0, r, Disconnect(r, s), x);
    if admitted && s !in r.closed {
      var q := if k in r.byConnection && r.byConnection[k] in r.conns && r.conns[r.byConnection[k]].socket != s
               then Disconnect(r, r.conns[r.byConnection[k]].socket) else r;
      ResumeKeeps(r0, f);
      assert r == Resumed(r0, f);
      ReplaceKeeps(r, s, k);
      FreshFacts(q);
      ReplaceGrows(r, k, s, x);
      Then(r0, r, q, x);
      WelcomeGrows(q, s, k, fillAllowed, now, x);
      Then(r0, q, HelloResume(r0, f, admitted, now), x);
    }
  }

  lemma ReplaceGrows(r: Relay, k: Key, s: Socket, x: set<Key>)
    ensures
      var q := if k in r.byConnection && r.byConnection[k] in r.conns && r.conns[r.byConnection[k]].socket != s
               then Disconnect(r, r.conns[r.byConnection[k]].socket) else r;
      Grows(r, q, x)
  {
    hide Grows, Disconnect;
    Unchanged(r, r, x);
    if k in r.byConnection && r.byConnection[k] in r.conns {
      DisconnectGrows(r, r.conns[r.byConnection[k]].socket, x);
    }
  }

  lemma WelcomeGrows(r: Relay, s: Socket, k: Key, fillAllowed: bool, now: int, x: set<Key>)
    requires Known(r) && k !in r.byConnection && forall id <- r.issued :: id < r.next
    ensures
      var q := Register(r, s, k, fillAllowed, now);
      Grows(r, if k in q.pendingStops then DeliverPendingStop(SetTerminal(q, r.next, k, Some(Stopped)), r.next, k) else q, x)
  {
    hide Grows, DeliverPendingStop;
    var q := Register(r, s, k, fillAllowed, now);
    RegisterGrows(r, s, k, fillAllowed, now, x);
    if k in q.pendingStops {
      var t := SetTerminal(q, r.next, k, Some(Stopped));
      Unchanged(q, t, x);
      DeliverGrows(t, r.next, k, x);
      Then(r, q, t, x);
      Then(r, t, DeliverPendingStop(t, r.next, k), x);
    }
  }

  lemma HelloFrameGrows(r: Relay, s: Socket, identity: Option<Key>, fillAllowed: bool, x: set<Key>)
    ensures Grows(r, HelloFrame(r, s, identity, fillAllowed), x)
  {
    hide Grows, Disconnect;
    Unchanged(r, r, x);
    DisconnectGrows(r, s, x);
    if identity.Some? {
      Unchanged(r, AddFlight(r.(admitting := r.admitting + {s}), HelloFlight(s, identity.value, fillAllowed)), x);
    }
  }

  lemma PingFrameGrows(r: Relay, s: Socket, now: int, x: set<Key>)
    ensures Grows(r, PingFrame(r, s, now), x)
  {
    hide Grows;
    Unchanged(r, PingFrame(r, s, now), x);
  }

  lemma ResultFrameGrows(r: Relay, s: Socket, id: CommandId, ok: bool, now: int, x: set<Key>)
    requires Acknowledged(r, Result(s, id, ok, now)) <= x
    ensures Grows(r, ResultFrame(r, s, id, ok, now), x)
  {
    hide Grows, Settle, SetTerminal, AddFlight, Current;
    Unchanged(r, r, x);
    if Receiver(r, s).Some? {
      var c := Receiver(r, s).value;
      ResultHandledGrows(r, c, r.conns[c].key, id, ok, now, x);
    }
  }

  lemma ResultHandledGrows(r: Relay, c: ConnId, k: Key, id: CommandId, ok: bool, now: int, x: set<Key>)
    requires ok && id in PendingOf(r, c) && PendingOf(r, c)[id].resolver.Delivery? ==> k in x
    ensures
      var t := Touch(r, c, now);
      && Grows(r, AddFlight(t, ResultFlight(c, id, ok)), x)
      && (id in PendingOf(t, c) ==>
            Grows(r, AddFlight(if ok then SetTerminal(Settle(t, c, k, id, AnsweredOk), c, k, Some(Stopped))
                               else Settle(t, c, k, id, AnsweredFailed), SafetyFlight(c)), x))
  {
    hide Grows;
    var t := Touch(r, c, now);
    Unchanged(r, AddFlight(t, ResultFlight(c, id, ok)), x);
    if id in PendingOf(t, c) {
      if ok {
        Unchanged(r, AddFlight(SetTerminal(Settle(t, c, k, id, AnsweredOk), c, k, Some(Stopped)), SafetyFlight(c)), x);
      } else {
        Unchanged(r, AddFlight(Settle(t, c, k, id, AnsweredFailed), SafetyFlight(c)), x);
      }
    }
  }

  lemma EventFrameGrows(r: Relay, s: Socket, kind: EventKind, epoch: Option<nat>, now: int, x: set<Key>)
    ensures Grows(r, EventFrame(r, s, kind, epoch, now), x)
  {
    hide Grows, RejectPending;
    Unchanged(r, r, x);
    if Receiver(r, s).Some? {
      var c := Receiver(r, s).value;
      var u := r.(lastSeenAt := r.lastSeenAt[c := now],
                  controlEpoch := if kind.EvStopped? && epoch.Some? then r.controlEpoch[c := epoch] else r.controlEpoch);
      var v := if TerminalOf(kind).Some? then SetTerminal(u, c, r.conns[c].key, TerminalOf(kind)) else u;
      Unchanged(r, v, x);
      RejectFrame(v, c, x);
      Then(r, v, RejectPending(v, c), x);
    }
  }

  lemma CheckResumeGrows(r0: Relay, f: FlightId, allowed: bool, x: set<Key>)
    requires f in r0.flights && !r0.flights[f].HelloFlight? && r0.flights[f].conn in r0.conns && r0.next !in r0.issued
    requires Acknowledged(r0, Checked(f, allowed)) <= x
    ensures Grows(r0, CheckResume(r0, f, allowed), x)
  {
    hide Grows, Disconnect, BindAndSend, Settle, SetRunning;
    var c := r0.flights[f].conn;
    var Conn(k, s, _) := r0.conns[c];
    var r := r0.(flights := r0.flights - {f});
    Unchanged(r0, r, x);
    DisconnectGrows(r, s, x);
    Then(r0, r, Disconnect(r, s), x);
    match r0.flights[f] {
      case ResultFlight(_, id, ok) => if allowed { ResultResumeGrows(r0, r, c, k, id, ok, x); }
      case DispatchFlight(_, cmd) => DispatchResumeGrows(r0, r, c, s, cmd, x);
      case _ =>
    }
  }

  lemma ResultResumeGrows(r0: Relay, r: Relay, c: ConnId, k: Key, id: CommandId, ok: bool, x: set<Key>)
    requires Grows(r0, r, x)
    requires ok && id in PendingOf(r, c) && PendingOf(r, c)[id].resolver.Delivery? ==> k in x
    ensures id in PendingOf(r, c) ==>
      Grows(r0, if ok then Settle(SetTerminal(r, c, k, None), c, k, id, AnsweredOk) else Settle(r, c, k, id, AnsweredFailed), x)
  {
    hide Grows, Settle;
    if id in PendingOf(r, c) {
      if ok {
        var t := SetTerminal(r, c, k, None);
        Unchanged(r, t, x);
        Then(r0, r, t, x);
        SettleGrows(t, c, k, id, AnsweredOk, x);
        Then(r0, t, Settle(t, c, k, id, AnsweredOk), x);
      } else {
        SettleGrows(r, c, k, id, AnsweredFailed, x);
        Then(r0, r, Settle(r, c, k, id, AnsweredFailed), x);
      }
    }
  }

  lemma RunningGrows(r: Relay, job: Option<JobId>, x: set<Key>)
    ensures var q := SetRunning(r, job); Grows(r, q, x) && q.next == r.next && q.issued == r.issued && q.conns == r.conns
  {
    hide Grows;
    Unchanged(r, SetRunning(r, job), x);
  }

  lemma DispatchResumeGrows(r0: Relay, r: Relay, c: ConnId, s: Socket, cmd: Command, x: set<Key>)
    requires Grows(r0, r, x) && r.next !in r.issued && c in r.conns
    ensures
      var running := SetRunning(r, cmd.job);
      && Grows(r0, Finish(Disconnect(running, s), cmd.job), x) && Grows(r0, Finish(running, cmd.job), x)
      && (Current(running, c) ==> Grows(r0, BindAndSend(running, c, r.conns[c], cmd), x))
  {
    var running := SetRunning(r, cmd.job);
    RunningGrows(r, cmd.job, x);
    hide Grows, SetRunning, Disconnect, Finish, BindAndSend;
    FinishGrows(running, cmd.job, x);
    Then(r0, r, running, x);
    Then(r0, running, Finish(running, cmd.job), x);
    DisconnectAndFinishGrows(running, s, cmd.job, x);
    Then(r0, running, Finish(Disconnect(running, s), cmd.job), x);
    if Current(running, c) {
      BindAndSendGrows(running, c, r.conns[c], cmd, x);
      Then(r0, running, BindAndSend(running, c, r.conns[c], cmd), x);
    }
  }

  lemma FreshFacts(r: Relay)
    requires Inv(r)
    ensures Known(r) && forall id <- r.issued :: id < r.next
    ensures forall k <- r.byConnection :: !Dead(r, r.byConnection[k])
  {
    hide FreshOk, RegistryOk, TerminalOk, PendingOk, NoStrandedOk, FramesOk, SettledOk, RetriesOk, FlightsOk,
         CallsOk, HoldersOk, ChainOk, LaneOk, BindingOk, OrderOk, SubmissionOrderOk, NoReturnOk, StopsOk, QuietOk;
    FreshTables(r.conns, r.flights, r.jobs, r.issued, r.next);
    forall k <- r.byConnection ensures !Dead(r, r.byConnection[k]) {
      KnownKey(r, k);
    }
  }

  lemma FreshTables(conns: map<ConnId, Conn>, flights: map<FlightId, Flight>, jobs: map<JobId, Job>, issued: map<CommandId, Sent>, next: nat)
    requires FreshOk(conns, flights, jobs, issued, next)
    ensures forall c <- conns :: c < next
    ensures forall id <- issued :: id < next
  {
  }

  lemma FrameGrows(r: Relay, e: Event, x: set<Key>)
    requires Inv(r) && Acknowledged(r, e) <= x
    requires e.Hello? || e.Admitted? || e.Ping? || e.Result? || e.ExtensionEvent? || e.Checked?
    ensures Grows(r, Step(r, e), x)
  {
    hide Mid, Grows, Disconnect, HelloFrame, HelloResume, PingFrame, ResultFrame, EventFrame, CheckResume;
    FreshFacts(r);
    Unchanged(r, r, x);
    match e {
      case Hello(s, identity, fillAllowed) => HelloFrameGrows(r, s, identity, fillAllowed, x);
      case Admitted(f, verdict, now) =>
        if f in r.flights && r.flights[f].HelloFlight? { HelloResumeGrows(r, f, verdict, now, x); }
      case Ping(s, now) => PingFrameGrows(r, s, now, x);
      case Result(s, id, ok, now) => ResultFrameGrows(r, s, id, ok, now, x);
      case ExtensionEvent(s, kind, epoch, now) => EventFrameGrows(r, s, kind, epoch, now, x);
      case Checked(f, verdict) =>
        if f in r.flights && !r.flights[f].HelloFlight? && r.flights[f].conn in r.conns { CheckResumeGrows(r, f, verdict, x); }
    }
  }

  lemma StepGrows(r: Relay, e: Event, x: set<Key>)
    requires Inv(r) && Acknowledged(r, e) <= x
    ensures Grows(r, Step(r, e), x)
  {
    hide Mid, Grows, Disconnect, Retry, RunJob, CommandTimeout, DispatchBound, Submit;
    FreshFacts(r);
    Unchanged(r, r, x);
    match e {
      case SocketClosed(s) => DisconnectGrows(r, s, x);
      case CallUnbound(k, op) => DispatchBoundGrows(r, Command(k, None, op, None), x);
      case CallBound(k, t, op) => SubmitGrows(r, k, t, op, x);
      case TailResolved(j) => if MayStart(r, j) { StartGrows(r, j, x); }
      case TailForgotten(j) =>
        if j in r.jobs { Unchanged(r, r.(commandTails := r.commandTails - {r.jobs[j].key}), x); }
      case TimerFired(id) => if Armed(r, id) { TimeoutGrows(r, id, x); }
      case RetryFired(c) => if c in r.retries { RetryFiredGrows(r, c, x); }
      case Renew(c) => Unchanged(r, AddFlight(r, RenewFlight(c)), x);
      case Sweep(c, now) => if IsRegistered(r, c) { DisconnectGrows(r, r.conns[c].socket, x); }
      case _ => FrameGrows(r, e, x);
    }
  }

  lemma RetryFiredGrows(r: Relay, c: ConnId, x: set<Key>)
    requires r.next !in r.issued
    ensures Grows(r, Retry(r.(retries := r.retries - multiset{c}), c), x)
  {
    hide Grows, Retry;
    var m := r.(retries := r.retries - multiset{c});
    Unchanged(r, m, x);
    RetryGrows(m, c, x);
    Then(r, m, Retry(m, c), x);
  }

  lemma FutureSelf(r: Relay)
    ensures Future(r, r)
  {
  }

  lemma {:induction false} ExecFuture(r: Relay, es: seq<Event>)
    requires Inv(r)
    ensures Future(r, Exec(r, es)) && Inv(Exec(r, es))
    decreases |es|
  {
    hide Mid, Step, Future;
    if es == [] {
      FutureSelf(r);
    } else {
      StepFuture(r, es[0]);
      ExecFuture(Step(r, es[0]), es[1..]);
      FutureThen(r, Step(r, es[0]), Exec(Step(r, es[0]), es[1..]));
    }
  }

  // ---------------------------------------------------------------- what follows

  /** A settled command is never settled again, whatever happens later. */
  lemma NeverSettledTwice(before: seq<Event>, after: seq<Event>, id: CommandId)
    requires Exec(EMPTY, before).settled[id] > 0
    ensures Exec(Exec(EMPTY, before), after).settled[id] == 1
  {
    var r := Exec(EMPTY, before);
    ReachableOk(before);
    hide Mid, Exec;
    ExecFuture(r, after);
    var q := Exec(r, after);
    SettledAtMostOnce(q, id);
  }

  lemma SettledAtMostOnce(r: Relay, id: CommandId)
    requires Inv(r)
    ensures r.settled[id] <= 1
  {
    hide FreshOk, RegistryOk, TerminalOk, PendingOk, NoStrandedOk, FramesOk, SettledOk, RetriesOk, FlightsOk,
         CallsOk, HoldersOk, ChainOk, LaneOk, BindingOk, OrderOk, SubmissionOrderOk, NoReturnOk, StopsOk, QuietOk;
    SettlementFacts(r.pending, r.timers, r.issued, r.settled, r.conns, r.byConnection);
  }

  /** Once a connection is replaced, revoked, swept or disconnected, nothing is ever sent on it again. */
  lemma DeadConnectionIsSilent(before: seq<Event>, after: seq<Event>, c: ConnId)
    requires Dead(Exec(EMPTY, before), c)
    ensures
      var r, q := Exec(EMPTY, before), Exec(Exec(EMPTY, before), after);
      Dead(q, c) && forall id <- q.issued :: q.issued[id].conn == c ==> id in r.issued
  {
    ReachableOk(before);
    hide Mid, Exec, Dead;
    ExecFuture(Exec(EMPTY, before), after);
  }

  /** After a task-bound command times out, its connection is gone and nothing further is sent on it. */
  lemma NothingAfterBoundTimeout(before: seq<Event>, id: CommandId, after: seq<Event>)
    requires Armed(Exec(EMPTY, before), id)
    requires
      var r := Exec(EMPTY, before);
      PendingOf(r, r.timers[id])[id].resolver.Call? && PendingOf(r, r.timers[id])[id].resolver.bound
    ensures
      var r := Exec(EMPTY, before);
      var c, q := r.timers[id], Exec(Step(r, TimerFired(id)), after);
      Dead(q, c) && forall x <- q.issued :: q.issued[x].conn == c ==> x in r.issued
  {
    var r := Exec(EMPTY, before);
    var c := r.timers[id];
    ReachableOk(before);
    hide Mid, Exec, Step, Dead;
    BoundTimeoutKills(r, id);
    StepFuture(r, TimerFired(id));
    ExecFuture(Step(r, TimerFired(id)), after);
  }

  lemma BoundTimeoutKills(r: Relay, id: CommandId)
    requires Inv(r) && Armed(r, id)
    requires PendingOf(r, r.timers[id])[id].resolver.Call? && PendingOf(r, r.timers[id])[id].resolver.bound
    ensures
      var c, q := r.timers[id], Step(r, TimerFired(id));
      Dead(q, c) && forall x <- q.issued :: x in r.issued
  {
    hide Mid, Settle, Disconnect, Dead;
    var c := r.timers[id];
    var k := r.conns[c].key;
    ArmedRegistered(r, id);
    SettleExpired(r, k, id);
    SettleGrows(r, c, k, id, Expired, {});
    DisconnectKills(Settle(r, c, k, id, Expired), c, k);
    assert Step(r, TimerFired(id)) == Disconnect(Settle(r, c, k, id, Expired), r.conns[c].socket);
  }

  lemma DisconnectKills(m: Relay, c: ConnId, k: Key)
    requires Mid(m, {}, {}) && Lookup(m.byConnection, k) == Some(c) && c in m.conns
    ensures
      var q := Disconnect(m, m.conns[c].socket);
      Dead(q, c) && forall x <- q.issued :: x in m.issued
  {
    hide Mid;
    var s := m.conns[c].socket;
    DisconnectKeeps(m, s, {}, {});
    ConnSocket(m, k);
    DisconnectSends(m, s);
    DisconnectGrows(m, s, {});
    hide Disconnect;
  }

  lemma DisconnectSends(r: Relay, s: Socket)
    ensures forall x <- Disconnect(r, s).issued :: x in r.issued
  {
  }

  lemma ConnSocket(r: Relay, k: Key)
    requires Inv(r) && k in r.byConnection
    ensures r.byConnection[k] in r.conns && Lookup(r.bySocket, r.conns[r.byConnection[k]].socket) == Some(r.byConnection[k])
    ensures r.conns[r.byConnection[k]].key == k
  {
    hide FreshOk, RegistryOk, TerminalOk, PendingOk, NoStrandedOk, FramesOk, SettledOk, RetriesOk, FlightsOk,
         CallsOk, HoldersOk, ChainOk, LaneOk, BindingOk, OrderOk, SubmissionOrderOk, NoReturnOk, StopsOk, QuietOk;
    KnownKey(r, k);
  }
}
