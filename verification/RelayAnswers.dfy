/** With what each command is settled: what its caller is told, and by which step. */
module RelayAnswers {
  import opened Options
  import opened RelayState
  import opened RelayInvariants
  import opened RelayProofs
  import opened RelaySteps
  import opened RelayTheorems
  import opened RelayHistory
  import opened RelayVerdicts

  /**
   * What this step tells the caller of a command: a result for a pending Stop at once, and any other
   * result once the authority has granted it and if its connection is still registered and the command
   * still pending, whether it went well; its timer, that there was no answer.
   */
  ghost function Verdict(r: Relay, e: Event, id: CommandId): Option<Answer> {
    match e
    case Result(s, i, ok, _) =>
      if i == id && Receiver(r, s).Some? && Current(r, Receiver(r, s).value) && id in PendingOf(r, Receiver(r, s).value)
         && PendingOf(r, Receiver(r, s).value)[id].op == Stop
      then Some(ByResult(ok)) else None
    case Checked(f, true) =>
      if f in r.flights && r.flights[f].ResultFlight? && r.flights[f].id == id && IsRegistered(r, r.flights[f].conn)
         && id in PendingOf(r, r.flights[f].conn)
      then Some(ByResult(r.flights[f].ok)) else None
    case TimerFired(i) => if i == id && Armed(r, id) then Some(Expired) else None
    case _ => None
  }

  function ByResult(ok: bool): Answer {
    if ok then AnsweredOk else AnsweredFailed
  }

  /** Between these states the command was settled with this answer, or not at all. */
  ghost predicate Answered(r: Relay, q: Relay, id: CommandId, answer: Option<Answer>) {
    && q.settled[id] == r.settled[id] + (if answer.Some? then 1 else 0)
    && Lookup(q.answers, id) == if answer.Some? then answer else Lookup(r.answers, id)
  }

  /** At most an event or the end of its connection has settled it. */
  ghost predicate AtMostAborted(r: Relay, q: Relay, id: CommandId) {
    Answered(r, q, id, None) || Answered(r, q, id, Some(Aborted))
  }

  ghost predicate SameAnswers(r: Relay, q: Relay) {
    q.answers == r.answers && q.settled == r.settled
  }

  lemma SameIsNone(r: Relay, q: Relay, id: CommandId)
    requires SameAnswers(r, q)
    ensures Answered(r, q, id, None) && AtMostAborted(r, q, id)
  {
  }

  lemma ThenSame(r: Relay, m: Relay, q: Relay, id: CommandId, answer: Option<Answer>)
    requires SameAnswers(m, q) || Answered(m, q, id, None)
    ensures Answered(r, m, id, answer) ==> Answered(r, q, id, answer)
  {
  }

  lemma FromSame(r: Relay, m: Relay, q: Relay, id: CommandId, answer: Option<Answer>)
    requires SameAnswers(r, m) && Answered(m, q, id, answer)
    ensures Answered(r, q, id, answer)
  {
  }

  // ---------------------------------------------------------------- the parts of a step

  lemma RejectAnswers(r: Relay, c: ConnId, id: CommandId)
    ensures Answered(r, RejectPending(r, c), id, if id in PendingOf(r, c) then Some(Aborted) else None)
  {
    hide DeliveriesOf, JobsOf, FinishAll;
  }

  lemma DisconnectAnswers(r: Relay, s: Socket, id: CommandId)
    ensures AtMostAborted(r, Disconnect(r, s), id)
    ensures s !in r.bySocket || id !in PendingOf(r, r.bySocket[s]) ==> Answered(r, Disconnect(r, s), id, None)
  {
    hide RejectPending, Answered, WithoutSocket;
    SameIsNone(r, r, id);
    var m := if s in r.bySocket then RejectPending(r, r.bySocket[s]) else r;
    if s in r.bySocket { RejectAnswers(r, r.bySocket[s], id); }
    ThenSame(r, m, Unregister(m, s), id, None);
    ThenSame(r, m, Unregister(m, s), id, Some(Aborted));
  }

  lemma SettleAnswers(r: Relay, c: ConnId, k: Key, i: CommandId, answer: Answer, id: CommandId)
    requires i in PendingOf(r, c)
    ensures Answered(r, Settle(r, c, k, i, answer), id, if i == id then Some(answer) else None)
  {
    hide WithPhase;
  }

  lemma IssueSame(r: Relay, c: ConnId, op: Op, taskId: Option<TaskId>, epoch: Option<nat>, resolver: Resolver)
    ensures SameAnswers(r, Issue(r, c, op, taskId, epoch, resolver))
  {
    hide WithPhase, PendingOf;
  }

  lemma BoundSame(r: Relay, c: ConnId, cmd: Command, b: Binding)
    ensures SameAnswers(r, Finish(r, cmd.job)) && SameAnswers(r, SetRunning(r, cmd.job)) && SameAnswers(r, SetBinding(r, c, b))
  {
    hide WithPhase;
  }

  lemma SentSame(r: Relay, c: ConnId, fillAllowed: bool, cmd: Command)
    ensures SameAnswers(r, Send(r, c, fillAllowed, cmd))
  {
    hide Issue, Finish, SameAnswers;
    IssueSame(r, c, cmd.op, cmd.taskId, Get(r.controlEpoch, c, None), Call(cmd.taskId.Some?, cmd.job));
    BoundSame(r, c, cmd, Binding(None, {}));
  }

  lemma SendSame(r: Relay, c: ConnId, fillAllowed: bool, cmd: Command, b: Binding)
    ensures SameAnswers(r, Send(r, c, fillAllowed, cmd)) && SameAnswers(r, Send(SetBinding(r, c, b), c, fillAllowed, cmd))
    ensures SameAnswers(r, Finish(r, cmd.job)) && SameAnswers(r, SetRunning(r, cmd.job)) && SameAnswers(r, SetBinding(r, c, b))
  {
    hide Send, Finish, SetRunning, SetBinding;
    BoundSame(r, c, cmd, b);
    SentSame(r, c, fillAllowed, cmd);
    SentSame(SetBinding(r, c, b), c, fillAllowed, cmd);
  }

  lemma DeliverSame(r: Relay, c: ConnId, k: Key)
    ensures SameAnswers(r, DeliverPendingStop(r, c, k)) && SameAnswers(r, Retry(r, c))
  {
    hide Issue, Registered;
    IssueSame(r, c, Stop, None, None, Delivery);
  }

  lemma BindAnswers(r: Relay, c: ConnId, conn: Conn, cmd: Command, id: CommandId)
    ensures AtMostAborted(r, BindAndSend(r, c, conn, cmd), id)
  {
    hide Send, SetBinding, Finish, Disconnect, AtMostAborted, Answered, SameAnswers, Retire, BindingOf, PendingOf;
    var b := BindingOf(r, c);
    SendSame(r, c, conn.fillAllowed, cmd, b);
    SameIsNone(r, Send(r, c, conn.fillAllowed, cmd), id);
    SameIsNone(r, Finish(r, cmd.job), id);
    if cmd.taskId.Some? {
      var t := cmd.taskId.value;
      SendSame(r, c, conn.fillAllowed, cmd, Binding(Some(t), Retire(b)));
      SameIsNone(r, Send(SetBinding(r, c, Binding(Some(t), Retire(b))), c, conn.fillAllowed, cmd), id);
      SendSame(r, c, conn.fillAllowed, cmd, b.(retiredTaskIds := b.retiredTaskIds + {t}));
      SameIsNone(r, Send(SetBinding(r, c, b.(retiredTaskIds := b.retiredTaskIds + {t})), c, conn.fillAllowed, cmd), id);
      ExhaustedAnswers(r, c, conn, cmd, b.(retiredTaskIds := Retire(b)), id);
    }
  }

  lemma ExhaustedAnswers(r: Relay, c: ConnId, conn: Conn, cmd: Command, b: Binding, id: CommandId)
    ensures AtMostAborted(r, Finish(Disconnect(SetBinding(r, c, b), conn.socket), cmd.job), id)
  {
    hide SetBinding, Finish, Disconnect, Answered, SameAnswers;
    SendSame(r, c, conn.fillAllowed, cmd, b);
    ClosedAnswers(r, SetBinding(r, c, b), conn.socket, cmd, id);
  }

  /** The connection of a refused or full handler is ended, and its call is over. */
  lemma ClosedAnswers(r: Relay, m: Relay, s: Socket, cmd: Command, id: CommandId)
    requires SameAnswers(r, m)
    ensures AtMostAborted(r, Disconnect(m, s), id) && AtMostAborted(r, Finish(Disconnect(m, s), cmd.job), id)
  {
    hide Finish, Disconnect, Answered, SameAnswers;
    DisconnectAnswers(m, s, id);
    var d := Disconnect(m, s);
    if Answered(m, d, id, None) { FromSame(r, m, d, id, None); } else { FromSame(r, m, d, id, Some(Aborted)); }
    SendSame(d, 0, false, cmd, Binding(None, {}));
    ThenSame(r, d, Finish(d, cmd.job), id, None);
    ThenSame(r, d, Finish(d, cmd.job), id, Some(Aborted));
  }

  lemma FromSameAtMost(r: Relay, m: Relay, q: Relay, id: CommandId)
    requires SameAnswers(r, m) && AtMostAborted(m, q, id)
    ensures AtMostAborted(r, q, id)
  {
  }

  lemma DispatchAnswers(r: Relay, cmd: Command, id: CommandId)
    ensures AtMostAborted(r, DispatchBound(r, cmd), id)
  {
    hide BindAndSend, AtMostAborted;
    BindAnswersAt(r, cmd, id);
    SameIsNone(r, Finish(QueueStop(r, cmd.key), cmd.job), id);
    SameIsNone(r, Finish(r, cmd.job), id);
    if cmd.key in r.byConnection {
      var f := DispatchFlight(r.byConnection[cmd.key], cmd);
      SameIsNone(r, AddFlight(r.(phase := WithPhase(r.phase, cmd.job, Checking(r.next))), f), id);
    }
  }

  lemma BindAnswersAt(r: Relay, cmd: Command, id: CommandId)
    ensures cmd.key in r.byConnection && r.byConnection[cmd.key] in r.conns ==>
      AtMostAborted(r, BindAndSend(r, r.byConnection[cmd.key], r.conns[r.byConnection[cmd.key]], cmd), id)
  {
    hide BindAndSend, AtMostAborted;
    if cmd.key in r.byConnection && r.byConnection[cmd.key] in r.conns {
      BindAnswers(r, r.byConnection[cmd.key], r.conns[r.byConnection[cmd.key]], cmd, id);
    }
  }

  lemma JobAnswers(r: Relay, m: Relay, j: JobId, id: CommandId)
    requires SameAnswers(r, m) && j in m.jobs
    ensures AtMostAborted(r, RunJob(m, j), id)
  {
    hide DispatchBound, AtMostAborted;
    var job := m.jobs[j];
    DispatchAnswers(m, Command(job.key, Some(job.taskId), job.op, Some(j)), id);
    SameIsNone(m, Finish(m, Some(j)), id);
    FromSameAtMost(r, m, RunJob(m, j), id);
  }

  lemma SubmitAnswers(r: Relay, k: Key, t: TaskId, op: Op, id: CommandId)
    ensures AtMostAborted(r, Submit(r, k, t, op), id)
  {
    hide RunJob, AtMostAborted;
    SameIsNone(r, AddJob(r, k, t, op), id);
    JobAnswers(r, AddJob(r, k, t, op), r.next, id);
  }

  lemma StartAnswers(r: Relay, j: JobId, id: CommandId)
    ensures AtMostAborted(r, Step(r, TailResolved(j)), id)
  {
    hide RunJob, AtMostAborted;
    TakenOff(r, r, id);
    if MayStart(r, j) { JobAnswers(r, SetRunning(r, Some(j)), j, id); }
  }

  // ---------------------------------------------------------------- the steps

  lemma HelloAnswers(r: Relay, f: FlightId, admitted: bool, now: int, id: CommandId)
    requires f in r.flights && r.flights[f].HelloFlight?
    ensures AtMostAborted(r, HelloResume(r, f, admitted, now), id)
  {
    hide Disconnect, Register, SetTerminal, DeliverPendingStop, AtMostAborted, SameAnswers;
    var HelloFlight(s, k, fillAllowed) := r.flights[f];
    var m := r.(flights := r.flights - {f}, admitting := r.admitting - {s});
    TakenOff(r, m, id);
    ClosedAnswers(r, m, s, Command(k, None, Stop, None), id);
    var former := if k in m.byConnection && m.byConnection[k] in m.conns && m.conns[m.byConnection[k]].socket != s
               then Some(m.conns[m.byConnection[k]].socket) else None;
    var g := if former.Some? then Disconnect(m, former.value) else m;
    if former.Some? { ClosedAnswers(r, m, former.value, Command(k, None, Stop, None), id); }
    WelcomeSame(g, s, k, fillAllowed, now);
    ThenSameAtMost(r, g, Register(g, s, k, fillAllowed, now), id);
    ThenSameAtMost(r, g, DeliverPendingStop(SetTerminal(Register(g, s, k, fillAllowed, now), g.next, k, Some(Stopped)), g.next, k), id);
  }

  lemma TakenOff(r: Relay, m: Relay, id: CommandId)
    requires m.answers == r.answers && m.settled == r.settled
    ensures SameAnswers(r, m) && AtMostAborted(r, m, id)
  {
  }

  lemma WelcomeSame(g: Relay, s: Socket, k: Key, fillAllowed: bool, now: int)
    ensures SameAnswers(g, Register(g, s, k, fillAllowed, now))
    ensures SameAnswers(g, DeliverPendingStop(SetTerminal(Register(g, s, k, fillAllowed, now), g.next, k, Some(Stopped)), g.next, k))
  {
    hide DeliverPendingStop;
    DeliverSame(SetTerminal(Register(g, s, k, fillAllowed, now), g.next, k, Some(Stopped)), g.next, k);
  }

  lemma ThenSameAtMost(r: Relay, m: Relay, q: Relay, id: CommandId)
    requires AtMostAborted(r, m, id) && SameAnswers(m, q)
    ensures AtMostAborted(r, q, id)
  {
  }

  lemma ResultAnswers(r: Relay, s: Socket, i: CommandId, ok: bool, now: int, id: CommandId)
    ensures Answered(r, ResultFrame(r, s, i, ok, now), id, Verdict(r, Result(s, i, ok, now), id))
  {
    hide Settle, Answered, Current, SetTerminal, AddFlight, PendingOf, SameAnswers;
    match Receiver(r, s) {
      case None => TakenOff(r, r, id); SameIsNone(r, r, id);
      case Some(c) =>
        var t := Touch(r, c, now);
        TouchedAnswers(r, c, now, ResultFlight(c, i, ok), id);
        if i in PendingOf(t, c) { StopAnswers(r, t, c, r.conns[c].key, i, ok, id); }
    }
  }

  lemma TouchedAnswers(r: Relay, c: ConnId, now: int, f: Flight, id: CommandId)
    ensures
      var t := Touch(r, c, now);
      SameAnswers(r, t) && t.pending == r.pending && PendingOf(t, c) == PendingOf(r, c) && Current(t, c) == Current(r, c)
      && Answered(r, AddFlight(t, f), id, None)
  {
  }

  lemma StopAnswers(r: Relay, t: Relay, c: ConnId, k: Key, i: CommandId, ok: bool, id: CommandId)
    requires SameAnswers(r, t) && i in PendingOf(t, c)
    ensures
      var u := if ok then SetTerminal(Settle(t, c, k, i, AnsweredOk), c, k, Some(Stopped)) else Settle(t, c, k, i, AnsweredFailed);
      Answered(r, AddFlight(u, SafetyFlight(c)), id, if i == id then Some(ByResult(ok)) else None)
  {
    hide Settle, Answered, PendingOf;
    var m := Settle(t, c, k, i, ByResult(ok));
    SettleAnswers(t, c, k, i, ByResult(ok), id);
    FromSame(r, t, m, id, if i == id then Some(ByResult(ok)) else None);
    var u := if ok then SetTerminal(m, c, k, Some(Stopped)) else m;
    ThenSame(r, m, AddFlight(u, SafetyFlight(c)), id, if i == id then Some(ByResult(ok)) else None);
  }

  lemma CheckedAnswers(r: Relay, f: FlightId, allowed: bool, id: CommandId)
    requires f in r.flights && !r.flights[f].HelloFlight? && r.flights[f].conn in r.conns
    requires Current(r, r.flights[f].conn) <==> IsRegistered(r, r.flights[f].conn)
    ensures
      var v := Verdict(r, Checked(f, allowed), id);
      if v.Some? then Answered(r, CheckResume(r, f, allowed), id, v) else AtMostAborted(r, CheckResume(r, f, allowed), id)
  {
    hide Settle, Answered, AtMostAborted, Current, SetTerminal, PendingOf, BindAndSend, Disconnect, Finish, SetRunning, SameAnswers;
    var c := r.flights[f].conn;
    var m := r.(flights := r.flights - {f});
    TakenOff(r, m, id);
    SameCurrent(r, m, c);
    match r.flights[f] {
      case ResultFlight(_, i, ok) =>
        ClosedAnswers(r, m, r.conns[c].socket, Command(r.conns[c].key, None, Stop, None), id);
        if i in PendingOf(m, c) { GrantAnswers(r, m, c, r.conns[c].key, i, ok, id); }
      case DispatchFlight(_, cmd) => CommandAnswers(r, m, c, r.conns[c], cmd, id);
      case PingFlight(_) => ClosedAnswers(r, m, r.conns[c].socket, Command(r.conns[c].key, None, Stop, None), id);
      case SafetyFlight(_) => ClosedAnswers(r, m, r.conns[c].socket, Command(r.conns[c].key, None, Stop, None), id);
      case RenewFlight(_) => ClosedAnswers(r, m, r.conns[c].socket, Command(r.conns[c].key, None, Stop, None), id);
    }
  }

  lemma SameCurrent(r: Relay, m: Relay, c: ConnId)
    requires m.conns == r.conns && m.closed == r.closed && m.bySocket == r.bySocket && m.byConnection == r.byConnection && m.pending == r.pending
    ensures Current(m, c) == Current(r, c) && PendingOf(m, c) == PendingOf(r, c)
  {
  }

  lemma GrantAnswers(r: Relay, m: Relay, c: ConnId, k: Key, i: CommandId, ok: bool, id: CommandId)
    requires SameAnswers(r, m) && i in PendingOf(m, c)
    ensures i in PendingOf(SetTerminal(m, c, k, None), c)
    ensures
      var q := if ok then Settle(SetTerminal(m, c, k, None), c, k, i, AnsweredOk) else Settle(m, c, k, i, AnsweredFailed);
      if i == id then Answered(r, q, id, Some(ByResult(ok))) else AtMostAborted(r, q, id)
  {
    hide Settle, Answered;
    var t := if ok then SetTerminal(m, c, k, None) else m;
    SettleAnswers(t, c, k, i, ByResult(ok), id);
    FromSame(r, t, Settle(t, c, k, i, ByResult(ok)), id, if i == id then Some(ByResult(ok)) else None);
  }

  lemma CommandAnswers(r: Relay, m: Relay, c: ConnId, conn: Conn, cmd: Command, id: CommandId)
    requires SameAnswers(r, m)
    ensures
      var running := SetRunning(m, cmd.job);
      && AtMostAborted(r, Finish(Disconnect(running, conn.socket), cmd.job), id) && AtMostAborted(r, Finish(running, cmd.job), id)
      && AtMostAborted(r, BindAndSend(running, c, conn, cmd), id)
  {
    hide BindAndSend, Disconnect, AtMostAborted, Answered;
    var running := SetRunning(m, cmd.job);
    ClosedAnswers(r, running, conn.socket, cmd, id);
    TakenOff(r, Finish(running, cmd.job), id);
    BindAnswers(running, c, conn, cmd, id);
    FromSameAtMost(r, running, BindAndSend(running, c, conn, cmd), id);
  }

  lemma TimeoutAnswers(r: Relay, i: CommandId, id: CommandId)
    requires Armed(r, i) && PendingOk(r.pending, r.timers)
    ensures if i == id then Answered(r, CommandTimeout(r, i), id, Some(Expired)) else AtMostAborted(r, CommandTimeout(r, i), id)
  {
    hide Settle, Answered, Retry, Disconnect, SameAnswers, PendingOk;
    var c := r.timers[i];
    var m := Settle(r, c, r.conns[c].key, i, Expired);
    SettleAnswers(r, c, r.conns[c].key, i, Expired, id);
    DeliverSame(m, c, r.conns[c].key);
    ThenSame(r, m, Retry(m, c), id, if i == id then Some(Expired) else None);
    DisconnectAnswers(m, r.conns[c].socket, id);
    var d := Disconnect(m, r.conns[c].socket);
    if i == id {
      Gone(r, c, r.conns[c].key, id);
      ThenSame(r, m, d, id, Some(Expired));
    } else {
      NotSettled(r, m, d, id);
    }
  }

  /** Settled, a command is pending nowhere. */
  lemma Gone(r: Relay, c: ConnId, k: Key, id: CommandId)
    requires PendingOk(r.pending, r.timers) && id in PendingOf(r, c)
    ensures forall d: ConnId :: id !in PendingOf(Settle(r, c, k, id, Expired), d)
  {
    hide WithPhase, PendingOk;
    forall d: ConnId ensures id !in PendingOf(Settle(r, c, k, id, Expired), d) {
      GoneFrom(r.pending, r.timers, c, id, d);
    }
  }

  lemma GoneFrom(pending: map<ConnId, map<CommandId, Pending>>, timers: map<CommandId, ConnId>, c: ConnId, id: CommandId, d: ConnId)
    requires PendingOk(pending, timers) && id in Get(pending, c, map[])
    ensures id !in Get(pending[c := Get(pending, c, map[]) - {id}], d, map[])
  {
    assert id in timers && timers[id] == c;
  }

  lemma NotSettled(r: Relay, m: Relay, d: Relay, id: CommandId)
    requires Answered(r, m, id, None) && AtMostAborted(m, d, id)
    ensures AtMostAborted(r, d, id)
  {
  }

  lemma EventAnswers(r: Relay, s: Socket, kind: EventKind, epoch: Option<nat>, now: int, id: CommandId)
    ensures AtMostAborted(r, EventFrame(r, s, kind, epoch, now), id)
  {
    hide RejectPending, Answered;
    SameIsNone(r, r, id);
    match Receiver(r, s) {
      case None =>
      case Some(c) =>
        var u := r.(lastSeenAt := r.lastSeenAt[c := now],
                    controlEpoch := if kind.EvStopped? && epoch.Some? then r.controlEpoch[c := epoch] else r.controlEpoch);
        var v := if TerminalOf(kind).Some? then SetTerminal(u, c, r.conns[c].key, TerminalOf(kind)) else u;
        RejectAnswers(v, c, id);
        FromSame(r, v, RejectPending(v, c), id, if id in PendingOf(v, c) then Some(Aborted) else None);
    }
  }

  /** A step tells a caller exactly what `Verdict` says; otherwise it tells it nothing, or that an event or the end of its connection aborted it. */
  lemma StepAnswers(r: Relay, e: Event, id: CommandId)
    requires Inv(r)
    ensures
      var v := Verdict(r, e, id);
      if v.Some? then Answered(r, Step(r, e), id, v) else AtMostAborted(r, Step(r, e), id)
  {
    hide Mid, Answered, AtMostAborted, Verdict, Step;
    match e {
      case Result(s, i, ok, now) => ResultStepAnswers(r, s, i, ok, now, id);
      case Checked(f, verdict) => CheckedStepAnswers(r, f, verdict, id);
      case TimerFired(i) => TimerAnswers(r, i, id);
      case _ => OtherStepAnswers(r, e, id);
    }
  }

  lemma ResultStepAnswers(r: Relay, s: Socket, i: CommandId, ok: bool, now: int, id: CommandId)
    ensures
      var v, q := Verdict(r, Result(s, i, ok, now), id), Step(r, Result(s, i, ok, now));
      if v.Some? then Answered(r, q, id, v) else AtMostAborted(r, q, id)
  {
    hide Answered, Verdict, ResultFrame;
    ResultAnswers(r, s, i, ok, now, id);
  }

  lemma OtherStepAnswers(r: Relay, e: Event, id: CommandId)
    requires !e.Result? && !e.Checked? && !e.TimerFired?
    ensures Verdict(r, e, id).None? && AtMostAborted(r, Step(r, e), id)
  {
    if e.Hello? || e.Admitted? || e.Ping? || e.ExtensionEvent? { FrameAnswers(r, e, id); } else { RestAnswers(r, e, id); }
    hide AtMostAborted, Step;
  }

  lemma FrameAnswers(r: Relay, e: Event, id: CommandId)
    requires e.Hello? || e.Admitted? || e.Ping? || e.ExtensionEvent?
    ensures AtMostAborted(r, Step(r, e), id)
  {
    hide AtMostAborted, HelloFrame, HelloResume, EventFrame, PingFrame;
    TakenOff(r, r, id);
    match e {
      case Hello(s, identity, fillAllowed) => HelloFrameAnswers(r, s, identity, fillAllowed, id);
      case Admitted(f, verdict, now) => if f in r.flights && r.flights[f].HelloFlight? { HelloAnswers(r, f, verdict, now, id); }
      case Ping(s, now) => PingAnswers(r, s, now, id);
      case ExtensionEvent(s, kind, epoch, now) => EventAnswers(r, s, kind, epoch, now, id);
    }
  }

  lemma PingAnswers(r: Relay, s: Socket, now: int, id: CommandId)
    ensures AtMostAborted(r, PingFrame(r, s, now), id)
  {
    hide AtMostAborted;
    TakenOff(r, PingFrame(r, s, now), id);
  }

  lemma RestAnswers(r: Relay, e: Event, id: CommandId)
    requires !e.Result? && !e.Checked? && !e.TimerFired? && !e.Hello? && !e.Admitted? && !e.Ping? && !e.ExtensionEvent?
    ensures AtMostAborted(r, Step(r, e), id)
  {
    hide AtMostAborted, Disconnect, DispatchBound, Submit, RunJob, MayStart, Retry;
    TakenOff(r, r, id);
    match e {
      case SocketClosed(s) => DisconnectAnswers(r, s, id);
      case CallUnbound(k, op) => DispatchAnswers(r, Command(k, None, op, None), id);
      case CallBound(k, t, op) => SubmitAnswers(r, k, t, op, id);
      case TailResolved(j) => StartAnswers(r, j, id);
      case TailForgotten(j) => if j in r.jobs { TakenOff(r, r.(commandTails := r.commandTails - {r.jobs[j].key}), id); }
      case RetryFired(c) => RetryAnswers(r, r.(retries := r.retries - multiset{c}), c, id);
      case Renew(c) => TakenOff(r, AddFlight(r, RenewFlight(c)), id);
      case Sweep(c, now) => if c in r.conns { DisconnectAnswers(r, r.conns[c].socket, id); }
    }
  }

  lemma HelloFrameAnswers(r: Relay, s: Socket, identity: Option<Key>, fillAllowed: bool, id: CommandId)
    ensures AtMostAborted(r, HelloFrame(r, s, identity, fillAllowed), id)
  {
    hide Disconnect;
    TakenOff(r, r, id);
    DisconnectAnswers(r, s, id);
    if identity.Some? {
      TakenOff(r, AddFlight(r.(admitting := r.admitting + {s}), HelloFlight(s, identity.value, fillAllowed)), id);
    }
  }

  lemma RetryAnswers(r: Relay, m: Relay, c: ConnId, id: CommandId)
    requires SameAnswers(r, m)
    ensures AtMostAborted(r, Retry(m, c), id)
  {
    hide Retry;
    DeliverSame(m, c, Key(0, 0));
    TakenOff(r, Retry(m, c), id);
  }

  lemma CheckedStepAnswers(r: Relay, f: FlightId, verdict: bool, id: CommandId)
    requires Inv(r)
    ensures
      var v, q := Verdict(r, Checked(f, verdict), id), Step(r, Checked(f, verdict));
      if v.Some? then Answered(r, q, id, v) else AtMostAborted(r, q, id)
  {
    hide Mid, CheckResume, AtMostAborted, Answered, PendingOf;
    TakenOff(r, r, id);
    if f in r.flights && !r.flights[f].HelloFlight? {
      FlightKnown(r, f);
      CheckedAnswers(r, f, verdict, id);
    }
  }

  lemma TimerAnswers(r: Relay, i: CommandId, id: CommandId)
    requires Inv(r)
    ensures
      var v, q := Verdict(r, TimerFired(i), id), Step(r, TimerFired(i));
      if v.Some? then Answered(r, q, id, v) else AtMostAborted(r, q, id)
  {
    hide CommandTimeout, AtMostAborted, Answered, Armed, PendingOk;
    TakenOff(r, r, id);
    if Armed(r, i) { TimeoutAnswers(r, i, id); }
  }

  // ---------------------------------------------------------------- any run

  /** In this run a step told the caller so. */
  ghost predicate ToldIn(es: seq<Event>, id: CommandId, answer: Answer) {
    exists n: nat :: n < |es| && Verdict(Exec(EMPTY, es[..n]), es[n], id) == Some(answer)
  }

  /** What is recorded of a command is what the run told, and nothing is recorded of one that is not settled. */
  ghost predicate RecordedAnswer(es: seq<Event>, id: CommandId) {
    var r := Exec(EMPTY, es);
    && (r.settled[id] > 0 <==> id in r.answers)
    && forall a: Answer :: a != Aborted ==> (Lookup(r.answers, id) == Some(a) <==> ToldIn(es, id, a))
  }

  lemma ToldSnoc(es: seq<Event>, e: Event, id: CommandId, a: Answer)
    ensures ToldIn(es + [e], id, a) <==> ToldIn(es, id, a) || Verdict(Exec(EMPTY, es), e, id) == Some(a)
  {
    hide Exec, Verdict;
    var all := es + [e];
    assert all[..|es|] == es;
    forall n: nat | n < |es| ensures all[..n] == es[..n] && all[n] == es[n] {
    }
    if n: nat :| n < |es| && Verdict(Exec(EMPTY, es[..n]), es[n], id) == Some(a) {
      assert Verdict(Exec(EMPTY, all[..n]), all[n], id) == Some(a);
    }
    if Verdict(Exec(EMPTY, es), e, id) == Some(a) {
      assert Verdict(Exec(EMPTY, all[..|es|]), all[|es|], id) == Some(a);
    }
  }

  lemma AnswerStep(es: seq<Event>, e: Event, id: CommandId)
    requires RecordedAnswer(es, id)
    ensures RecordedAnswer(es + [e], id)
  {
    hide Exec, Step, Mid, Verdict, ToldIn;
    var r := Exec(EMPTY, es);
    ReachableOk(es);
    ReachableOk(es + [e]);
    ExecAppend(EMPTY, es, e);
    StepAnswers(r, e, id);
    SettledAtMostOnce(r, id);
    SettledAtMostOnce(Step(r, e), id);
    forall a: Answer ensures ToldIn(es + [e], id, a) <==> ToldIn(es, id, a) || Verdict(r, e, id) == Some(a) { ToldSnoc(es, e, id, a); }
  }

  /**
   * What a caller is told: over every run, that its command went well exactly if a result said so that
   * the authority granted, or that answered a Stop, while the command was pending on the connection it
   * was sent to; that it failed exactly if such a result said that; that there was no answer exactly if
   * its timer fired first; and of any other settled command, that an event or the end of its connection aborted it.
   */
  lemma {:induction false} AnsweredExactlyWhen(es: seq<Event>, id: CommandId)
    ensures
      var r := Exec(EMPTY, es);
      && (id in r.answers <==> r.settled[id] == 1)
      && (forall a: Answer :: a != Aborted ==> (Lookup(r.answers, id) == Some(a) <==> ToldIn(es, id, a)))
    decreases |es|
  {
    hide Exec, ToldIn, RecordedAnswer, Mid;
    AnswersRecorded(es, id);
    ReachableOk(es);
    SettledAtMostOnce(Exec(EMPTY, es), id);
    RecordedMeans(es, id);
  }

  lemma RecordedMeans(es: seq<Event>, id: CommandId)
    requires RecordedAnswer(es, id)
    ensures
      var r := Exec(EMPTY, es);
      && (r.settled[id] > 0 <==> id in r.answers)
      && (forall a: Answer :: a != Aborted ==> (Lookup(r.answers, id) == Some(a) <==> ToldIn(es, id, a)))
  {
    hide Exec, ToldIn;
  }

  lemma {:induction false} AnswersRecorded(es: seq<Event>, id: CommandId)
    ensures RecordedAnswer(es, id)
    decreases |es|
  {
    if es != [] {
      hide RecordedAnswer;
      AnswersRecorded(es[..|es| - 1], id);
      AnswerStep(es[..|es| - 1], es[|es| - 1], id);
      assert es[..|es| - 1] + [es[|es| - 1]] == es;
    }
  }
}
