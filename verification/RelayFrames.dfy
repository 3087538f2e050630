/**
 * What one step may send and bind: which control epoch a command frame carries, when the relay's
 * epoch for a connection changes, and that task bindings only move forward.  The first two are
 * what `Fence.RelaySends` and `Fence.RelayReads` take the relay to do.
 */
module RelayFrames {
  import opened Options
  import opened RelayState
  import opened RelayInvariants
  import opened RelaySteps
  import opened RelayTheorems
  import opened RelayHistory

  /** The step of a handler other than hello and event, as far as epochs, frames and bindings go. */
  ghost predicate Forward(r: Relay, q: Relay) {
    && q.controlEpoch == r.controlEpoch && q.conns == r.conns && FramesCarry(r.issued, q.issued, r.controlEpoch, r.conns)
    && BindingsGrow(r.binding, q.binding)
    && (forall c <- q.binding :: c in r.binding || c in r.conns)
    && NoNewHello(r.flights, q.flights)
  }

  /** No hello has begun to wait for its admission. */
  ghost predicate NoNewHello(before: map<FlightId, Flight>, after: map<FlightId, Flight>) {
    forall f <- after :: after[f].HelloFlight? ==> f in before && before[f] == after[f]
  }

  /** No task is ever taken off the retired list, and a bound connection stays bound. */
  ghost predicate BindingsGrow(before: map<ConnId, Binding>, after: map<ConnId, Binding>) {
    forall c <- before :: c in after && BindingGrows(before[c], after[c])
  }

  predicate BindingGrows(b: Binding, b': Binding) {
    && b.retiredTaskIds <= b'.retiredTaskIds && (b.activeTaskId.Some? ==> b'.activeTaskId.Some?)
    && (b.activeTaskId.Some? && b'.activeTaskId != b.activeTaskId ==> b.activeTaskId.value in b'.retiredTaskIds)
  }

  /** Every frame in `later` that is not in `sent` is as it should be. */
  ghost predicate FramesCarry(sent: map<CommandId, Sent>, later: map<CommandId, Sent>, epochs: map<ConnId, Option<nat>>, conns: map<ConnId, Conn>) {
    forall id <- later :: (id in sent && later[id] == sent[id]) || FrameOk(later[id], epochs, conns)
  }

  /** A dispatched frame carries its connection's epoch; a fill reference only goes where fills are allowed. */
  ghost predicate FrameOk(s: Sent, epochs: map<ConnId, Option<nat>>, conns: map<ConnId, Conn>) {
    && (if s.resolver.Delivery? then s.controlEpoch.None? else s.controlEpoch == Get(epochs, s.conn, None))
    && (s.op == FillReference ==> s.conn in conns && conns[s.conn].fillAllowed)
  }

  lemma Chain(a: Relay, b: Relay, c: Relay)
    requires Forward(a, b) && Forward(b, c)
    ensures Forward(a, c)
  {
    hide FrameOk;
    BindingsChain(a.binding, b.binding, c.binding);
    hide BindingsGrow;
  }

  lemma BindingsChain(a: map<ConnId, Binding>, b: map<ConnId, Binding>, c: map<ConnId, Binding>)
    requires BindingsGrow(a, b) && BindingsGrow(b, c)
    ensures BindingsGrow(a, c)
  {
  }

  lemma Same(r: Relay, q: Relay)
    requires q.controlEpoch == r.controlEpoch && q.issued == r.issued && q.conns == r.conns && q.binding == r.binding
    requires NoNewHello(r.flights, q.flights)
    ensures Forward(r, q)
  {
  }

  lemma RejectEpochs(r: Relay, c: ConnId)
    ensures var q := RejectPending(r, c); q.controlEpoch == r.controlEpoch && q.issued == r.issued && q.conns == r.conns && q.binding == r.binding && q.flights == r.flights
  {
    hide FinishAll, JobsOf, DeliveriesOf;
  }

  lemma DisconnectEpochs(r: Relay, s: Socket)
    ensures var q := Disconnect(r, s); q.controlEpoch == r.controlEpoch && q.issued == r.issued && q.conns == r.conns && q.binding == r.binding && q.flights == r.flights
  {
    hide RejectPending, WithoutSocket;
    if s in r.bySocket {
      RejectEpochs(r, r.bySocket[s]);
    }
  }

  lemma IssueEpochs(r: Relay, c: ConnId, op: Op, taskId: Option<TaskId>, epoch: Option<nat>, resolver: Resolver)
    requires epoch == if resolver.Delivery? then None else Get(r.controlEpoch, c, None)
    requires op == FillReference ==> c in r.conns && r.conns[c].fillAllowed
    ensures Forward(r, Issue(r, c, op, taskId, epoch, resolver))
  {
  }

  lemma SettleEpochs(r: Relay, c: ConnId, k: Key, id: CommandId, answer: Answer)
    requires id in PendingOf(r, c)
    ensures var q := Settle(r, c, k, id, answer); q.controlEpoch == r.controlEpoch && q.issued == r.issued && q.conns == r.conns && q.binding == r.binding && q.flights == r.flights
  {
  }

  lemma RetryEpochs(r: Relay, c: ConnId)
    ensures Forward(r, Retry(r, c))
  {
    hide Issue;
    Same(r, r);
    IssueEpochs(r, c, Stop, None, None, Delivery);
  }

  lemma FinishEpochs(r: Relay, job: Option<JobId>)
    ensures Forward(r, Finish(r, job)) && Forward(r, SetRunning(r, job))
  {
    hide Forward;
    Same(r, Finish(r, job));
    Same(r, SetRunning(r, job));
  }

  lemma DisconnectAndFinishEpochs(r: Relay, s: Socket, job: Option<JobId>)
    ensures Forward(r, Disconnect(r, s)) && Forward(r, Finish(Disconnect(r, s), job))
  {
    hide Forward, Disconnect;
    DisconnectEpochs(r, s);
    Same(r, Disconnect(r, s));
    FinishEpochs(Disconnect(r, s), job);
    Chain(r, Disconnect(r, s), Finish(Disconnect(r, s), job));
  }

  lemma SendEpochs(r: Relay, c: ConnId, fillAllowed: bool, cmd: Command)
    requires c in r.conns && fillAllowed == r.conns[c].fillAllowed
    ensures Forward(r, Send(r, c, fillAllowed, cmd))
  {
    hide Forward, Issue, Finish;
    FinishEpochs(r, cmd.job);
    if cmd.op != FillReference || fillAllowed {
      IssueEpochs(r, c, cmd.op, cmd.taskId, Get(r.controlEpoch, c, None), Call(cmd.taskId.Some?, cmd.job));
    }
  }

  lemma Rebinds(r: Relay, c: ConnId, b: Binding)
    requires BindingGrows(BindingOf(r, c), b) && c in r.conns
    ensures Forward(r, SetBinding(r, c, b)) && SetBinding(r, c, b).conns == r.conns
  {
  }

  lemma BoundSendEpochs(r: Relay, c: ConnId, b: Binding, fillAllowed: bool, cmd: Command)
    requires c in r.conns && fillAllowed == r.conns[c].fillAllowed && BindingGrows(BindingOf(r, c), b)
    ensures Forward(r, Send(SetBinding(r, c, b), c, fillAllowed, cmd))
  {
    var m := SetBinding(r, c, b);
    Rebinds(r, c, b);
    hide Forward, Send, SetBinding;
    SendEpochs(m, c, fillAllowed, cmd);
    Chain(r, m, Send(m, c, fillAllowed, cmd));
  }

  lemma FullEpochs(r: Relay, c: ConnId, b: Binding, s: Socket, job: Option<JobId>)
    requires BindingGrows(BindingOf(r, c), b) && c in r.conns
    ensures Forward(r, Finish(Disconnect(SetBinding(r, c, b), s), job))
  {
    var m := SetBinding(r, c, b);
    Rebinds(r, c, b);
    hide Forward, Disconnect, Finish, SetBinding;
    DisconnectAndFinishEpochs(m, s, job);
    Chain(r, m, Finish(Disconnect(m, s), job));
  }

  /** The three ways in which a binding is replaced. */
  lemma RetiringGrows(b: Binding, t: Option<TaskId>)
    ensures BindingGrows(b, b.(retiredTaskIds := Retire(b)))
    ensures t.Some? ==> BindingGrows(b, Binding(t, Retire(b))) && BindingGrows(b, b.(retiredTaskIds := b.retiredTaskIds + {t.value}))
  {
  }

  lemma BindEpochs(r: Relay, c: ConnId, conn: Conn, cmd: Command)
    requires c in r.conns && conn == r.conns[c]
    ensures Forward(r, BindAndSend(r, c, conn, cmd))
  {
    var b := BindingOf(r, c);
    RetiringGrows(b, cmd.taskId);
    hide Forward, BindAndSend, Disconnect, Send, SetBinding, Finish, Retire, BindingOf, BindingGrows;
    BindCases(r, c, conn, cmd);
    FinishEpochs(r, cmd.job);
    SendEpochs(r, c, conn.fillAllowed, cmd);
    if cmd.taskId.Some? {
      FullEpochs(r, c, b.(retiredTaskIds := Retire(b)), conn.socket, cmd.job);
      BoundSendEpochs(r, c, Binding(cmd.taskId, Retire(b)), conn.fillAllowed, cmd);
      BoundSendEpochs(r, c, b.(retiredTaskIds := b.retiredTaskIds + {cmd.taskId.value}), conn.fillAllowed, cmd);
    }
  }

  lemma SuspendEpochs(r: Relay, job: Option<JobId>, f: Flight)
    requires !f.HelloFlight?
    ensures Forward(r, AddFlight(r.(phase := WithPhase(r.phase, job, Checking(r.next))), f))
  {
    hide Forward, WithPhase;
    Same(r, AddFlight(r.(phase := WithPhase(r.phase, job, Checking(r.next))), f));
  }

  lemma QueueStopEpochs(r: Relay, k: Key, job: Option<JobId>)
    ensures Forward(r, Finish(QueueStop(r, k), job))
  {
    hide Forward;
    Same(r, Finish(QueueStop(r, k), job));
  }

  lemma DispatchEpochs(r: Relay, cmd: Command)
    ensures Forward(r, DispatchBound(r, cmd))
  {
    hide Forward, BindAndSend, Finish, QueueStop, AddFlight, WithPhase;
    if cmd.key !in r.byConnection || r.byConnection[cmd.key] !in r.conns {
      FinishEpochs(r, cmd.job);
      QueueStopEpochs(r, cmd.key, cmd.job);
    } else if cmd.op != Stop {
      SuspendEpochs(r, cmd.job, DispatchFlight(r.byConnection[cmd.key], cmd));
    } else {
      BindEpochs(r, r.byConnection[cmd.key], r.conns[r.byConnection[cmd.key]], cmd);
    }
  }

  lemma RunJobEpochs(r: Relay, q: Relay, j: JobId)
    requires Forward(r, q) && j in q.jobs
    ensures Forward(r, RunJob(q, j))
  {
    hide Forward, DispatchBound, Finish;
    var job := q.jobs[j];
    DispatchEpochs(q, Command(job.key, Some(job.taskId), job.op, Some(j)));
    FinishEpochs(q, Some(j));
    Chain(r, q, RunJob(q, j));
  }

  lemma ResultResumeEpochs(r: Relay, c: ConnId, k: Key, id: CommandId, ok: bool)
    requires id in PendingOf(r, c)
    ensures Forward(r, if ok then Settle(SetTerminal(r, c, k, None), c, k, id, AnsweredOk) else Settle(r, c, k, id, AnsweredFailed))
  {
    var t := SetTerminal(r, c, k, None);
    Same(r, t);
    hide Forward, Settle;
    SettleEpochs(t, c, k, id, AnsweredOk);
    Same(t, Settle(t, c, k, id, AnsweredOk));
    Chain(r, t, Settle(t, c, k, id, AnsweredOk));
    SettleEpochs(r, c, k, id, AnsweredFailed);
    Same(r, Settle(r, c, k, id, AnsweredFailed));
  }

  lemma DispatchResumeEpochs(r: Relay, c: ConnId, conn: Conn, cmd: Command)
    requires c in r.conns && conn == r.conns[c]
    ensures
      var running := SetRunning(r, cmd.job);
      && Forward(r, Finish(Disconnect(running, conn.socket), cmd.job)) && Forward(r, Finish(running, cmd.job))
      && Forward(r, BindAndSend(running, c, conn, cmd))
  {
    var running := SetRunning(r, cmd.job);
    assert running.conns == r.conns;
    hide Forward, Disconnect, Finish, BindAndSend, SetRunning;
    FinishEpochs(r, cmd.job);
    FinishEpochs(running, cmd.job);
    Chain(r, running, Finish(running, cmd.job));
    DisconnectAndFinishEpochs(running, conn.socket, cmd.job);
    Chain(r, running, Finish(Disconnect(running, conn.socket), cmd.job));
    BindEpochs(running, c, conn, cmd);
    Chain(r, running, BindAndSend(running, c, conn, cmd));
  }

  lemma ForwardFlights(r: Relay, f: FlightId)
    ensures Forward(r, r.(flights := r.flights - {f}))
  {
    Same(r, r.(flights := r.flights - {f}));
  }

  lemma CheckEpochs(r0: Relay, f: FlightId, allowed: bool)
    requires f in r0.flights && !r0.flights[f].HelloFlight? && r0.flights[f].conn in r0.conns
    ensures Forward(r0, CheckResume(r0, f, allowed))
  {
    hide Forward, Disconnect, BindAndSend, Settle, SetRunning, Finish, Current, SetTerminal, PendingOf;
    var flight := r0.flights[f];
    var c := flight.conn;
    var conn := r0.conns[c];
    var r := r0.(flights := r0.flights - {f});
    ForwardFlights(r0, f);
    Same(r, r);
    DisconnectAndFinishEpochs(r, conn.socket, None);
    match flight {
      case ResultFlight(_, id, ok) => if id in PendingOf(r, c) { ResultResumeEpochs(r, c, conn.key, id, ok); }
      case DispatchFlight(_, cmd) => DispatchResumeEpochs(r, c, conn, cmd);
      case _ =>
    }
    Chain(r0, r, CheckResume(r0, f, allowed));
  }

  lemma TimeoutEpochs(r: Relay, id: CommandId)
    requires Armed(r, id)
    ensures Forward(r, CommandTimeout(r, id))
  {
    hide Settle, Retry, Disconnect, Forward;
    var c := r.timers[id];
    var m := Settle(r, c, r.conns[c].key, id, Expired);
    SettleEpochs(r, c, r.conns[c].key, id, Expired);
    Same(r, m);
    RetryEpochs(m, c);
    Chain(r, m, Retry(m, c));
    DisconnectEpochs(m, r.conns[c].socket);
    Same(r, Disconnect(m, r.conns[c].socket));
  }

  lemma ResultEpochs(r: Relay, s: Socket, id: CommandId, ok: bool, now: int)
    ensures Forward(r, ResultFrame(r, s, id, ok, now))
  {
    hide Settle, Forward, Current, PendingOf, SetTerminal;
    Same(r, r);
    if Receiver(r, s).Some? {
      var c := Receiver(r, s).value;
      var t := Touch(r, c, now);
      TouchedEpochs(r, c, now, id, ok);
      if id in PendingOf(t, c) { StopResultEpochs(r, t, c, r.conns[c].key, id); }
    }
  }

  lemma TouchedEpochs(r: Relay, c: ConnId, now: int, id: CommandId, ok: bool)
    ensures Forward(r, Touch(r, c, now)) && Forward(r, AddFlight(Touch(r, c, now), ResultFlight(c, id, ok)))
  {
    Same(r, Touch(r, c, now));
    Same(r, AddFlight(Touch(r, c, now), ResultFlight(c, id, ok)));
  }

  lemma StopResultEpochs(r: Relay, t: Relay, c: ConnId, k: Key, id: CommandId)
    requires Forward(r, t) && id in PendingOf(t, c)
    ensures Forward(r, AddFlight(SetTerminal(Settle(t, c, k, id, AnsweredOk), c, k, Some(Stopped)), SafetyFlight(c)))
    ensures Forward(r, AddFlight(Settle(t, c, k, id, AnsweredFailed), SafetyFlight(c)))
  {
    hide Settle, Forward, PendingOf;
    SettleEpochs(t, c, k, id, AnsweredOk);
    SettleEpochs(t, c, k, id, AnsweredFailed);
    var u, v := AddFlight(SetTerminal(Settle(t, c, k, id, AnsweredOk), c, k, Some(Stopped)), SafetyFlight(c)),
                AddFlight(Settle(t, c, k, id, AnsweredFailed), SafetyFlight(c));
    Same(t, u);
    Same(t, v);
    Chain(r, t, u);
    Chain(r, t, v);
  }

  lemma SubmitEpochs(r: Relay, k: Key, t: TaskId, op: Op)
    ensures Forward(r, Submit(r, k, t, op))
  {
    hide RunJob, Forward;
    Same(r, AddJob(r, k, t, op));
    RunJobEpochs(r, AddJob(r, k, t, op), r.next);
  }

  lemma TimerEpochs(r: Relay, id: CommandId)
    ensures Forward(r, Step(r, TimerFired(id)))
  {
    Same(r, r);
    hide Forward, CommandTimeout;
    if Armed(r, id) { TimeoutEpochs(r, id); }
  }

  lemma RetryFiredEpochs(r: Relay, c: ConnId)
    ensures Forward(r, Step(r, RetryFired(c)))
  {
    var m := r.(retries := r.retries - multiset{c});
    Same(r, m);
    Same(r, r);
    hide Forward, Retry;
    RetryEpochs(m, c);
    Chain(r, m, Retry(m, c));
  }

  lemma TailEpochs(r: Relay, j: JobId)
    ensures Forward(r, Step(r, TailResolved(j))) && Forward(r, Step(r, TailForgotten(j)))
  {
    Same(r, r);
    if j in r.jobs { Same(r, r.(commandTails := r.commandTails - {r.jobs[j].key})); }
    hide Forward, RunJob, SetRunning;
    if MayStart(r, j) {
      FinishEpochs(r, Some(j));
      SameJobs(r, j);
      RunJobEpochs(r, SetRunning(r, Some(j)), j);
    }
  }

  lemma SameJobs(r: Relay, j: JobId)
    ensures SetRunning(r, Some(j)).jobs == r.jobs
  {
  }

  lemma SweepEpochs(r: Relay, c: ConnId, now: int)
    ensures Forward(r, Step(r, Sweep(c, now)))
  {
    Same(r, r);
    hide Forward, Disconnect;
    if c in r.conns { DisconnectAndFinishEpochs(r, r.conns[c].socket, None); }
  }

  lemma CloseEpochs(r: Relay, s: Socket)
    ensures Forward(r, Step(r, SocketClosed(s)))
  {
    hide Forward, Disconnect;
    DisconnectAndFinishEpochs(r, s, None);
  }

  lemma RenewEpochs(r: Relay, c: ConnId)
    ensures Forward(r, Step(r, Renew(c)))
  {
    Same(r, r);
    Same(r, AddFlight(r, RenewFlight(c)));
    hide Forward, AddFlight;
  }

  /**
   * Except for a hello, its admission and an event, no step changes any connection's
   * epoch, and every command frame it sends carries the epoch of its connection at that moment; a
   * queued Stop's delivery carries none.  A fill reference is only ever sent to a connection that
   * announced the capability, and bindings only move forward.
   */
  lemma HandlersSendProperFrames(r: Relay, e: Event)
    requires !e.Hello? && !e.Admitted? && !e.ExtensionEvent?
    ensures Forward(r, Step(r, e))
  {
    hide Step, Forward;
    match e {
      case TailResolved(j) => TailEpochs(r, j);
      case TailForgotten(j) => TailEpochs(r, j);
      case TimerFired(id) => TimerEpochs(r, id);
      case RetryFired(c) => RetryFiredEpochs(r, c);
      case Renew(c) => RenewEpochs(r, c);
      case Sweep(c, now) => SweepEpochs(r, c, now);
      case SocketClosed(s) => CloseEpochs(r, s);
      case _ => FrameEpochs(r, e);
    }
  }

  lemma FrameEpochs(r: Relay, e: Event)
    requires e.Ping? || e.Result? || e.Checked? || e.CallUnbound? || e.CallBound?
    ensures Forward(r, Step(r, e))
  {
    Same(r, r);
    hide Forward, HelloFrame, PingFrame, ResultFrame, CheckResume, DispatchBound, Submit;
    match e {
      case Ping(s, now) => PingEpochs(r, s, now);
      case Result(s, id, ok, now) => ResultEpochs(r, s, id, ok, now);
      case Checked(f, verdict) =>
        if f in r.flights && !r.flights[f].HelloFlight? && r.flights[f].conn in r.conns { CheckEpochs(r, f, verdict); }
      case CallUnbound(k, op) => DispatchEpochs(r, Command(k, None, op, None));
      case CallBound(k, t, op) => SubmitEpochs(r, k, t, op);
    }
  }

  /** A hello begins to wait for its admission: on an open, unknown socket, with a verified identity. */
  ghost predicate SaysHello(r: Relay, q: Relay, s: Socket, identity: Option<Key>, fillAllowed: bool) {
    && s !in r.closed && s !in r.bySocket && s !in r.admitting && identity.Some?
    && q == AddFlight(r.(admitting := r.admitting + {s}), HelloFlight(s, identity.value, fillAllowed))
  }

  lemma HelloEpochs(r: Relay, s: Socket, identity: Option<Key>, fillAllowed: bool)
    ensures
      var q := Step(r, Hello(s, identity, fillAllowed));
      Forward(r, q) || SaysHello(r, q, s, identity, fillAllowed)
  {
    Same(r, r);
    hide Disconnect, Forward, AddFlight;
    DisconnectAndFinishEpochs(r, s, None);
  }

  lemma HelloLeaves(r: Relay, q: Relay, s: Socket, identity: Option<Key>, fillAllowed: bool)
    requires SaysHello(r, q, s, identity, fillAllowed)
    ensures identity.Some? && q.binding == r.binding && q.conns == r.conns && q.controlEpoch == r.controlEpoch && q.issued == r.issued
    ensures q.flights == r.flights[r.next := HelloFlight(s, identity.value, fillAllowed)]
  {
  }

  lemma PingEpochs(r: Relay, s: Socket, now: int)
    ensures Forward(r, PingFrame(r, s, now))
  {
    hide Forward;
    Same(r, r);
    if Receiver(r, s).Some? {
      Same(r, AddFlight(Touch(r, Receiver(r, s).value, now), PingFlight(Receiver(r, s).value)));
    }
  }

  lemma TerminalEpochs(r: Relay, c: ConnId, k: Key, event: Option<Terminal>)
    ensures var q := SetTerminal(r, c, k, event);
            q.controlEpoch == r.controlEpoch && q.issued == r.issued && q.binding == r.binding && q.conns == r.conns && q.flights == r.flights
  {
  }

  /** An event sends nothing; only `stopped` with an epoch changes one, that of its own connection, to that epoch. */
  lemma StoppedSetsTheEpoch(r: Relay, s: Socket, kind: EventKind, epoch: Option<nat>, now: int)
    ensures
      var q := Step(r, ExtensionEvent(s, kind, epoch, now));
      && q.issued == r.issued && q.binding == r.binding && q.conns == r.conns && q.flights == r.flights
      && q.controlEpoch == if kind.EvStopped? && epoch.Some? && Receiver(r, s).Some?
                           then r.controlEpoch[Receiver(r, s).value := epoch] else r.controlEpoch
  {
    hide EventFrame, Receiver;
    EventSets(r, s, kind, epoch, now);
  }

  lemma EventSets(r: Relay, s: Socket, kind: EventKind, epoch: Option<nat>, now: int)
    ensures
      var q := EventFrame(r, s, kind, epoch, now);
      && q.issued == r.issued && q.binding == r.binding && q.conns == r.conns && q.flights == r.flights
      && q.controlEpoch == if kind.EvStopped? && epoch.Some? && Receiver(r, s).Some?
                           then r.controlEpoch[Receiver(r, s).value := epoch] else r.controlEpoch
  {
    hide RejectPending, Receiver, SetTerminal, TerminalOf;
    if Receiver(r, s).Some? {
      ReceiverExists(r, s);
      var c := Receiver(r, s).value;
      var u := r.(lastSeenAt := r.lastSeenAt[c := now],
                  controlEpoch := if kind.EvStopped? && epoch.Some? then r.controlEpoch[c := epoch] else r.controlEpoch);
      TerminalEpochs(u, c, r.conns[c].key, TerminalOf(kind));
      var v := if TerminalOf(kind).Some? then SetTerminal(u, c, r.conns[c].key, TerminalOf(kind)) else u;
      assert EventFrame(r, s, kind, epoch, now) == RejectPending(v, c);
      hide EventFrame;
      RejectEpochs(v, c);
    }
  }

  lemma ReceiverExists(r: Relay, s: Socket)
    requires Receiver(r, s).Some?
    ensures Receiver(r, s).value in r.conns
  {
  }

  /** Frames that were there before, and otherwise only deliveries of a queued Stop, without an epoch. */
  ghost predicate OnlyBare(sent: map<CommandId, Sent>, later: map<CommandId, Sent>) {
    forall id <- later :: (id in sent && later[id] == sent[id]) || (later[id].controlEpoch.None? && later[id].resolver.Delivery?)
  }

  /** What a hello may do: keep all epochs and bindings, or give a new connection none; and it sends no epoch. */
  ghost predicate Admission(r: Relay, q: Relay) {
    && ((q.controlEpoch == r.controlEpoch && q.binding == r.binding && q.conns == r.conns)
        || (q.controlEpoch == r.controlEpoch[r.next := None] && q.binding == r.binding[r.next := Binding(None, {})] && r.next < q.next))
    && OnlyBare(r.issued, q.issued)
  }

  lemma AdmissionFrom(r: Relay, m: Relay, q: Relay)
    requires m.controlEpoch == r.controlEpoch && m.issued == r.issued && m.next == r.next && m.binding == r.binding && m.conns == r.conns
    requires Admission(m, q)
    ensures Admission(r, q)
  {
  }

  lemma AdmissionSame(r: Relay, q: Relay)
    requires q.controlEpoch == r.controlEpoch && q.issued == r.issued && q.binding == r.binding && q.conns == r.conns
    ensures Admission(r, q)
  {
  }

  lemma HelloResumeEpochs(r0: Relay, f: FlightId, admitted: bool, now: int)
    requires f in r0.flights && r0.flights[f].HelloFlight?
    ensures Admission(r0, HelloResume(r0, f, admitted, now))
  {
    hide Admission, Disconnect, Register, DeliverPendingStop, SetTerminal;
    var HelloFlight(s, k, fillAllowed) := r0.flights[f];
    var m := r0.(flights := r0.flights - {f}, admitting := r0.admitting - {s});
    DisconnectEpochs(m, s);
    AdmissionSame(r0, m);
    AdmissionSame(r0, Disconnect(m, s));
    if admitted && s !in m.closed {
      var q := if k in m.byConnection && m.byConnection[k] in m.conns && m.conns[m.byConnection[k]].socket != s
               then Disconnect(m, m.conns[m.byConnection[k]].socket) else m;
      if k in m.byConnection && m.byConnection[k] in m.conns {
        DisconnectEpochs(m, m.conns[m.byConnection[k]].socket);
        DisconnectNext(m, m.conns[m.byConnection[k]].socket);
      }
      WelcomeEpochs(q, s, k, fillAllowed, now);
      AdmissionFrom(r0, q, HelloResume(r0, f, admitted, now));
    }
  }

  /** A new connection starts without an epoch, every other keeps its own; the only frame sent is a queued Stop's, with none. */
  lemma AdmissionSetsNoEpoch(r: Relay, f: FlightId, verdict: bool, now: int)
    ensures Admission(r, Step(r, Admitted(f, verdict, now)))
  {
    hide Admission, HelloResume;
    AdmissionSame(r, r);
    if f in r.flights && r.flights[f].HelloFlight? {
      HelloResumeEpochs(r, f, verdict, now);
    }
  }

  lemma DisconnectNext(r: Relay, s: Socket)
    ensures Disconnect(r, s).next == r.next
  {
  }

  lemma RegisterEpochs(q: Relay, s: Socket, k: Key, fillAllowed: bool, now: int)
    ensures Admission(q, Register(q, s, k, fillAllowed, now))
  {
  }

  lemma DeliverEpochs(q: Relay, g: Relay, c: ConnId, k: Key)
    requires Admission(q, g)
    ensures Admission(q, DeliverPendingStop(g, c, k))
  {
    hide PendingOf;
  }

  lemma TerminalAdmission(q: Relay, g: Relay, c: ConnId, k: Key, event: Option<Terminal>)
    requires Admission(q, g)
    ensures Admission(q, SetTerminal(g, c, k, event))
  {
  }

  /** Registering, and delivering a queued Stop. */
  lemma WelcomeEpochs(q: Relay, s: Socket, k: Key, fillAllowed: bool, now: int)
    ensures Admission(q, Register(q, s, k, fillAllowed, now))
    ensures Admission(q, DeliverPendingStop(SetTerminal(Register(q, s, k, fillAllowed, now), q.next, k, Some(Stopped)), q.next, k))
  {
    hide Admission, Register, SetTerminal, DeliverPendingStop;
    var g := Register(q, s, k, fillAllowed, now);
    RegisterEpochs(q, s, k, fillAllowed, now);
    TerminalAdmission(q, g, q.next, k, Some(Stopped));
    DeliverEpochs(q, SetTerminal(g, q.next, k, Some(Stopped)), q.next, k);
  }

  // ---------------------------------------------------------------- over runs

  ghost predicate BindingsKnown(r: Relay) {
    forall c <- r.binding :: c < r.next
  }

  lemma StepBindings(r: Relay, e: Event)
    requires Inv(r) && BindingsKnown(r)
    ensures BindingsGrow(r.binding, Step(r, e).binding) && BindingsKnown(Step(r, e))
  {
    hide Mid, Step, SameFrames, Dead, BindingGrows, OnlyBare, FramesCarry, SaysHello, NoNewHello;
    StepFuture(r, e);
    ConnsKnown(r);
    NoChange(r.binding);
    match e {
      case Hello(s, identity, fillAllowed) =>
        HelloEpochs(r, s, identity, fillAllowed);
        if SaysHello(r, Step(r, e), s, identity, fillAllowed) { HelloLeaves(r, Step(r, e), s, identity, fillAllowed); }
      case Admitted(f, verdict, now) => AdmissionSetsNoEpoch(r, f, verdict, now);
      case ExtensionEvent(s, kind, epoch, now) => StoppedSetsTheEpoch(r, s, kind, epoch, now);
      case _ => HandlersSendProperFrames(r, e);
    }
  }

  lemma NoChange(b: map<ConnId, Binding>)
    ensures forall c <- b :: BindingGrows(b[c], b[c])
  {
  }

  lemma ConnsKnown(r: Relay)
    requires Inv(r)
    ensures forall c <- r.conns :: c < r.next
  {
    hide RegistryOk, TerminalOk, PendingOk, NoStrandedOk, FramesOk, SettledOk, RetriesOk, FlightsOk,
         CallsOk, HoldersOk, ChainOk, LaneOk, BindingOk, OrderOk, SubmissionOrderOk, NoReturnOk, StopsOk, QuietOk;
  }

  lemma {:induction false} ExecBindings(r: Relay, es: seq<Event>)
    requires Inv(r) && BindingsKnown(r)
    ensures BindingsGrow(r.binding, Exec(r, es).binding)
    decreases |es|
  {
    hide Mid, Step, BindingsKnown, BindingsGrow;
    if es == [] {
      BindingsSame(r.binding);
    } else {
      StepBindings(r, es[0]);
      StepKeeps(r, es[0]);
      ExecBindings(Step(r, es[0]), es[1..]);
      BindingsChain(r.binding, Step(r, es[0]).binding, Exec(Step(r, es[0]), es[1..]).binding);
    }
  }

  lemma BindingsSame(b: map<ConnId, Binding>)
    ensures BindingsGrow(b, b)
  {
  }

  lemma {:induction false} ExecKnown(r: Relay, es: seq<Event>)
    requires Inv(r) && BindingsKnown(r)
    ensures BindingsKnown(Exec(r, es))
    decreases |es|
  {
    hide Mid, Step, BindingsKnown, BindingsGrow;
    if es != [] {
      StepBindings(r, es[0]);
      StepKeeps(r, es[0]);
      ExecKnown(Step(r, es[0]), es[1..]);
    }
  }

  /** Over any run and its continuation: a connection's retired tasks only grow, and a task that is left is retired. */
  lemma RetiredTasksOnlyGrow(before: seq<Event>, after: seq<Event>)
    ensures BindingsGrow(Exec(EMPTY, before).binding, Exec(Exec(EMPTY, before), after).binding)
  {
    hide Mid, Exec, BindingsGrow;
    EmptyOk();
    ReachableOk(before);
    ExecKnown(EMPTY, before);
    ExecBindings(Exec(EMPTY, before), after);
  }
}
