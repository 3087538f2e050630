/** When each connection was heard last: what the liveness sweep goes by. */
module RelayLiveness {
  import opened Options
  import opened RelayState
  import opened RelayInvariants
  import opened RelayTheorems
  import opened RelayHistory
  import opened RelayFrames
  import opened RelayVerdicts
  import opened RelayHandlers

  /** `c` is heard in this step: a frame of its own socket is read, or its admission is granted. */
  ghost predicate Hears(r: Relay, e: Event, c: ConnId) {
    || ((e.Ping? || e.Result? || e.ExtensionEvent?) && Receiver(r, e.socket) == Some(c))
    || (e.Admitted? && c == r.next && c in Step(r, e).conns)
  }

  function TimeOf(e: Event): int {
    if e.Admitted? || e.Ping? || e.Result? || e.ExtensionEvent? then e.now else 0
  }

  /** When `c` was heard last in this run. */
  ghost function LastHeard(es: seq<Event>, c: ConnId): Option<int>
    decreases |es|
  {
    if es == [] then None
    else
      var before, e := es[..|es| - 1], es[|es| - 1];
      if Hears(Exec(EMPTY, before), e, c) then Some(TimeOf(e)) else LastHeard(before, c)
  }

  /** No frame of a connection is read, and nobody is admitted. */
  ghost predicate NobodyHeard(r: Relay, q: Relay) {
    q.lastSeenAt == r.lastSeenAt && q.conns == r.conns
  }

  lemma DisconnectHears(r: Relay, s: Socket)
    ensures NobodyHeard(r, Disconnect(r, s))
  {
    hide WithoutSocket, FinishAll, JobsOf, DeliveriesOf, PendingOf;
  }

  lemma SettleHears(r: Relay, c: ConnId, k: Key, id: CommandId, answer: Answer)
    requires id in PendingOf(r, c)
    ensures NobodyHeard(r, Settle(r, c, k, id, answer))
  {
    hide WithPhase;
  }

  lemma IssueHears(r: Relay, c: ConnId, op: Op, taskId: Option<TaskId>, epoch: Option<nat>, resolver: Resolver)
    ensures NobodyHeard(r, Issue(r, c, op, taskId, epoch, resolver))
  {
    hide PendingOf, WithPhase;
  }

  lemma RetryHears(r: Relay, c: ConnId)
    ensures NobodyHeard(r, Retry(r, c))
  {
    hide Issue;
    IssueHears(r, c, Stop, None, None, Delivery);
  }

  lemma SmallHears(r: Relay, c: ConnId, b: Binding, job: Option<JobId>, k: Key, event: Option<Terminal>)
    ensures NobodyHeard(r, Finish(r, job)) && NobodyHeard(r, SetRunning(r, job)) && NobodyHeard(r, SetBinding(r, c, b))
    ensures NobodyHeard(r, SetTerminal(r, c, k, event)) && NobodyHeard(r, QueueStop(r, k))
  {
  }

  lemma SendHears(r: Relay, c: ConnId, fillAllowed: bool, cmd: Command)
    ensures NobodyHeard(r, Send(r, c, fillAllowed, cmd))
  {
    hide Issue, Finish;
    SmallHears(r, c, Binding(None, {}), cmd.job, cmd.key, None);
    IssueHears(r, c, cmd.op, cmd.taskId, Get(r.controlEpoch, c, None), Call(cmd.taskId.Some?, cmd.job));
  }

  lemma BoundHears(r: Relay, c: ConnId, b: Binding, conn: Conn, cmd: Command)
    ensures NobodyHeard(r, Send(SetBinding(r, c, b), c, conn.fillAllowed, cmd))
    ensures NobodyHeard(r, Finish(Disconnect(SetBinding(r, c, b), conn.socket), cmd.job))
  {
    hide Send, Finish, Disconnect, SetBinding;
    var m := SetBinding(r, c, b);
    SmallHears(r, c, b, cmd.job, cmd.key, None);
    SendHears(m, c, conn.fillAllowed, cmd);
    DisconnectHears(m, conn.socket);
    SmallHears(Disconnect(m, conn.socket), c, b, cmd.job, cmd.key, None);
  }

  lemma BindHears(r: Relay, c: ConnId, conn: Conn, cmd: Command)
    ensures NobodyHeard(r, BindAndSend(r, c, conn, cmd))
  {
    hide NobodyHeard, BindAndSend, Send, Finish, Disconnect, SetBinding, Retire, BindingOf;
    var b := BindingOf(r, c);
    BindCases(r, c, conn, cmd);
    SmallHears(r, c, b, cmd.job, cmd.key, None);
    SendHears(r, c, conn.fillAllowed, cmd);
    BoundHears(r, c, b.(retiredTaskIds := Retire(b)), conn, cmd);
    if cmd.taskId.Some? {
      BoundHears(r, c, Binding(cmd.taskId, Retire(b)), conn, cmd);
      BoundHears(r, c, b.(retiredTaskIds := b.retiredTaskIds + {cmd.taskId.value}), conn, cmd);
    }
  }

  lemma DispatchHears(r: Relay, cmd: Command)
    ensures NobodyHeard(r, DispatchBound(r, cmd))
  {
    hide NobodyHeard, BindAndSend, Finish, QueueStop, AddFlight, WithPhase;
    FinishHears(r, cmd.job, cmd.key);
    if cmd.key in r.byConnection && r.byConnection[cmd.key] in r.conns {
      var c := r.byConnection[cmd.key];
      CheckHears(r, cmd.job, DispatchFlight(c, cmd));
      BindHears(r, c, r.conns[c], cmd);
    }
  }

  lemma FinishHears(r: Relay, job: Option<JobId>, k: Key)
    ensures NobodyHeard(r, Finish(r, job)) && NobodyHeard(r, Finish(QueueStop(r, k), job))
  {
  }

  lemma CheckHears(r: Relay, job: Option<JobId>, f: Flight)
    ensures NobodyHeard(r, AddFlight(r.(phase := WithPhase(r.phase, job, Checking(r.next))), f)) && NobodyHeard(r, AddFlight(r, f))
  {
  }

  lemma RunJobHears(r: Relay, j: JobId)
    requires j in r.jobs
    ensures NobodyHeard(r, RunJob(r, j))
  {
    hide NobodyHeard, DispatchBound, Finish;
    var job := r.jobs[j];
    DispatchHears(r, Command(job.key, Some(job.taskId), job.op, Some(j)));
    FinishHears(r, Some(j), job.key);
  }

  lemma TimeoutHears(r: Relay, id: CommandId)
    requires Armed(r, id)
    ensures NobodyHeard(r, CommandTimeout(r, id))
  {
    hide Settle, Retry, Disconnect;
    var c := r.timers[id];
    var m := Settle(r, c, r.conns[c].key, id, Expired);
    SettleHears(r, c, r.conns[c].key, id, Expired);
    RetryHears(m, c);
    DisconnectHears(m, r.conns[c].socket);
  }

  lemma VerdictHears(r: Relay, f: FlightId, allowed: bool)
    requires f in r.flights && !r.flights[f].HelloFlight? && r.flights[f].conn in r.conns
    ensures NobodyHeard(r, CheckResume(r, f, allowed))
  {
    hide BindAndSend, Settle, SetRunning, Finish, Disconnect, Current, SetTerminal;
    var c, m := r.flights[f].conn, r.(flights := r.flights - {f});
    var k := r.conns[c].key;
    DisconnectHears(m, r.conns[c].socket);
    match r.flights[f] {
      case ResultFlight(_, id, ok) =>
        SmallHears(m, c, Binding(None, {}), None, k, None);
        TerminalPending(m, c, k, None);
        if id in PendingOf(m, c) {
          SettleHears(SetTerminal(m, c, k, None), c, k, id, AnsweredOk);
          SettleHears(m, c, k, id, AnsweredFailed);
        }
      case DispatchFlight(_, cmd) => CommandHears(m, c, r.conns[c], cmd);
      case _ =>
    }
  }

  lemma CommandHears(m: Relay, c: ConnId, conn: Conn, cmd: Command)
    ensures
      var s := SetRunning(m, cmd.job);
      && NobodyHeard(m, Finish(Disconnect(s, conn.socket), cmd.job)) && NobodyHeard(m, Finish(s, cmd.job))
      && NobodyHeard(m, BindAndSend(s, c, conn, cmd))
  {
    hide BindAndSend, SetRunning, Finish, Disconnect;
    var s := SetRunning(m, cmd.job);
    SmallHears(m, c, Binding(None, {}), cmd.job, cmd.key, None);
    SmallHears(s, c, Binding(None, {}), cmd.job, cmd.key, None);
    DisconnectHears(s, conn.socket);
    SmallHears(Disconnect(s, conn.socket), c, Binding(None, {}), cmd.job, cmd.key, None);
    BindHears(s, c, conn, cmd);
  }

  lemma OthersHear(r: Relay, e: Event)
    requires !e.Admitted? && !e.Ping? && !e.Result? && !e.ExtensionEvent?
    ensures NobodyHeard(r, Step(r, e))
  {
    hide Step;
    if e.CallUnbound? || e.CallBound? || e.TailResolved? || e.TimerFired? || e.RetryFired? || e.TailForgotten? {
      CallsHear(r, e);
    } else {
      SocketsHear(r, e);
    }
  }

  lemma SocketsHear(r: Relay, e: Event)
    requires e.Hello? || e.Checked? || e.SocketClosed? || e.Renew? || e.Sweep?
    ensures NobodyHeard(r, Step(r, e))
  {
    hide NobodyHeard, HelloFrame, CheckResume, Disconnect, AddFlight, IsRegistered;
    NothingHears(r, r.commandTails);
    match e {
      case Hello(s, identity, fillAllowed) => HelloHears(r, s, identity, fillAllowed);
      case Checked(f, verdict) =>
        if f in r.flights && !r.flights[f].HelloFlight? && r.flights[f].conn in r.conns { VerdictHears(r, f, verdict); }
      case SocketClosed(s) => DisconnectHears(r, s);
      case Renew(c) => CheckHears(r, None, RenewFlight(c));
      case Sweep(c, now) => if IsRegistered(r, c) { RegisteredKnown(r, c); DisconnectHears(r, r.conns[c].socket); }
    }
  }

  lemma RegisteredKnown(r: Relay, c: ConnId)
    requires IsRegistered(r, c)
    ensures c in r.conns
  {
  }

  lemma HelloHears(r: Relay, s: Socket, identity: Option<Key>, fillAllowed: bool)
    ensures NobodyHeard(r, HelloFrame(r, s, identity, fillAllowed))
  {
    hide Disconnect, AddFlight;
    DisconnectHears(r, s);
    if identity.Some? { CheckHears(r.(admitting := r.admitting + {s}), None, HelloFlight(s, identity.value, fillAllowed)); }
  }

  lemma NothingHears(r: Relay, tails: map<Key, JobId>)
    ensures NobodyHeard(r, r) && NobodyHeard(r, r.(commandTails := tails))
  {
  }

  lemma SubmitHears(r: Relay, k: Key, t: TaskId, op: Op)
    ensures NobodyHeard(r, Submit(r, k, t, op))
  {
    hide RunJob;
    RunJobHears(AddJob(r, k, t, op), r.next);
  }

  lemma RetryFiredHears(r: Relay, c: ConnId)
    ensures NobodyHeard(r, Retry(r.(retries := r.retries - multiset{c}), c))
  {
    hide Retry;
    RetryHears(r.(retries := r.retries - multiset{c}), c);
  }

  lemma CallsHear(r: Relay, e: Event)
    requires e.CallUnbound? || e.CallBound? || e.TailResolved? || e.TimerFired? || e.RetryFired? || e.TailForgotten?
    ensures NobodyHeard(r, Step(r, e))
  {
    hide NobodyHeard, DispatchBound, Submit, RunJob, CommandTimeout, Retry, Armed, MayStart, PhaseOf;
    NothingHears(r, r.commandTails);
    match e {
      case CallUnbound(k, op) => DispatchHears(r, Command(k, None, op, None));
      case CallBound(k, t, op) => SubmitHears(r, k, t, op);
      case TailResolved(j) => StartHears(r, j);
      case TimerFired(id) => if Armed(r, id) { TimeoutHears(r, id); }
      case RetryFired(c) => RetryFiredHears(r, c);
      case TailForgotten(j) => if j in r.jobs { NothingHears(r, r.commandTails - {r.jobs[j].key}); }
    }
  }

  lemma StartHears(r: Relay, j: JobId)
    ensures MayStart(r, j) ==> NobodyHeard(r, RunJob(SetRunning(r, Some(j)), j))
  {
    hide RunJob;
    if MayStart(r, j) { RunJobHears(SetRunning(r, Some(j)), j); }
  }

  /** A frame of a connection marks it as heard now. */
  lemma FramesHear(r: Relay, e: Event)
    requires e.Ping? || e.Result? || e.ExtensionEvent?
    ensures
      var q := Step(r, e);
      q.conns == r.conns
      && q.lastSeenAt == if Receiver(r, e.socket).Some? then r.lastSeenAt[Receiver(r, e.socket).value := e.now] else r.lastSeenAt
  {
    hide Settle, SetTerminal, RejectPending, Receiver, Current, AddFlight, TerminalOf;
    if Receiver(r, e.socket).Some? {
      ReceiverExists(r, e.socket);
      var c := Receiver(r, e.socket).value;
      match e {
        case Ping(s, now) => CheckHears(Touch(r, c, now), None, PingFlight(c));
        case Result(s, id, ok, now) => AnswerHears(Touch(r, c, now), c, r.conns[c].key, id, ok);
        case ExtensionEvent(s, kind, epoch, now) => EventHears(r, c, kind, epoch, now);
      }
    }
  }

  lemma AnswerHears(t: Relay, c: ConnId, k: Key, id: CommandId, ok: bool)
    ensures NobodyHeard(t, AddFlight(t, ResultFlight(c, id, ok)))
    ensures id in PendingOf(t, c) ==>
      NobodyHeard(t, AddFlight(if ok then SetTerminal(Settle(t, c, k, id, AnsweredOk), c, k, Some(Stopped)) else Settle(t, c, k, id, AnsweredFailed),
                               SafetyFlight(c)))
  {
    hide Settle, SetTerminal, AddFlight;
    CheckHears(t, None, ResultFlight(c, id, ok));
    if id in PendingOf(t, c) {
      var u := Settle(t, c, k, id, if ok then AnsweredOk else AnsweredFailed);
      SettleHears(t, c, k, id, if ok then AnsweredOk else AnsweredFailed);
      SmallHears(u, c, Binding(None, {}), None, k, Some(Stopped));
      CheckHears(SetTerminal(u, c, k, Some(Stopped)), None, SafetyFlight(c));
      CheckHears(u, None, SafetyFlight(c));
    }
  }

  lemma EventHears(r: Relay, c: ConnId, kind: EventKind, epoch: Option<nat>, now: int)
    requires c in r.conns
    ensures
      var u := r.(lastSeenAt := r.lastSeenAt[c := now],
                  controlEpoch := if kind.EvStopped? && epoch.Some? then r.controlEpoch[c := epoch] else r.controlEpoch);
      var v := if TerminalOf(kind).Some? then SetTerminal(u, c, r.conns[c].key, TerminalOf(kind)) else u;
      NobodyHeard(u, RejectPending(v, c))
  {
    hide RejectPending, SetTerminal, TerminalOf;
    var u := r.(lastSeenAt := r.lastSeenAt[c := now],
                controlEpoch := if kind.EvStopped? && epoch.Some? then r.controlEpoch[c := epoch] else r.controlEpoch);
    SmallHears(u, c, Binding(None, {}), None, r.conns[c].key, TerminalOf(kind));
    RejectHears(if TerminalOf(kind).Some? then SetTerminal(u, c, r.conns[c].key, TerminalOf(kind)) else u, c);
  }

  lemma RejectHears(r: Relay, c: ConnId)
    ensures NobodyHeard(r, RejectPending(r, c))
  {
    hide FinishAll, JobsOf, DeliveriesOf, PendingOf;
  }

  /** An admission that registers a connection marks it as heard now. */
  lemma AdmissionHears(r: Relay, f: FlightId, verdict: bool, now: int)
    requires Inv(r)
    ensures
      var q := Step(r, Admitted(f, verdict, now));
      if r.next in q.conns then q.conns.Keys == r.conns.Keys + {r.next} && q.lastSeenAt == r.lastSeenAt[r.next := now] else NobodyHeard(r, q)
  {
    hide Inv, HelloResume;
    IdsAreFresh(r);
    if f in r.flights && r.flights[f].HelloFlight? {
      if verdict && r.flights[f].socket !in r.closed { GrantedHears(r, f, now); } else { RefusedHears(r, f, verdict, now); }
    }
  }

  lemma RefusedHears(r: Relay, f: FlightId, verdict: bool, now: int)
    requires f in r.flights && r.flights[f].HelloFlight? && (!verdict || r.flights[f].socket in r.closed)
    ensures NobodyHeard(r, HelloResume(r, f, verdict, now))
  {
    hide Disconnect, Register, DeliverPendingStop, SetTerminal;
    var h := r.flights[f];
    DisconnectHears(r.(flights := r.flights - {f}, admitting := r.admitting - {h.socket}), h.socket);
  }

  lemma GrantedHears(r: Relay, f: FlightId, now: int)
    requires f in r.flights && r.flights[f].HelloFlight? && r.flights[f].socket !in r.closed
    ensures
      var q := HelloResume(r, f, true, now);
      q.conns.Keys == r.conns.Keys + {r.next} && q.lastSeenAt == r.lastSeenAt[r.next := now]
  {
    hide HelloResume, Disconnect, Register, DeliverPendingStop, SetTerminal;
    var h := r.flights[f];
    var m := r.(flights := r.flights - {f}, admitting := r.admitting - {h.socket});
    ResumeIs(r, f, now);
    if h.key in m.byConnection && m.byConnection[h.key] in m.conns {
      DisconnectHears(m, m.conns[m.byConnection[h.key]].socket);
      DisconnectNext(m, m.conns[m.byConnection[h.key]].socket);
    }
    var q := WithoutOld(m, h.socket, h.key);
    hide WithoutOld;
    var g := Register(q, h.socket, h.key, h.fillAllowed, now);
    RegisterHears(q, h, now);
    SmallHears(g, q.next, Binding(None, {}), None, h.key, Some(Stopped));
    DeliverHears(SetTerminal(g, q.next, h.key, Some(Stopped)), q.next, h.key);
  }

  lemma RegisterHears(q: Relay, h: Flight, now: int)
    requires h.HelloFlight?
    ensures
      var g := Register(q, h.socket, h.key, h.fillAllowed, now);
      g.conns.Keys == q.conns.Keys + {q.next} && g.lastSeenAt == q.lastSeenAt[q.next := now]
  {
  }

  lemma DeliverHears(r: Relay, c: ConnId, k: Key)
    ensures NobodyHeard(r, DeliverPendingStop(r, c, k))
  {
    hide Issue;
    IssueHears(r, c, Stop, None, None, Delivery);
  }

  /** What the relay remembers of a connection's last frame is when it was heard last in the run. */
  ghost predicate Remembers(es: seq<Event>, r: Relay) {
    forall c <- r.conns :: c in r.lastSeenAt && LastHeard(es, c) == Some(r.lastSeenAt[c])
  }

  lemma StepRemembers(es: seq<Event>, e: Event)
    requires Remembers(es, Exec(EMPTY, es))
    ensures Remembers(es + [e], Step(Exec(EMPTY, es), e))
  {
    hide Inv, Exec, Step, NobodyHeard, Hears;
    ReachableOk(es);
    var r := Exec(EMPTY, es);
    forall c | c in Step(r, e).conns
      ensures c in Step(r, e).lastSeenAt && LastHeard(es + [e], c) == Some(Step(r, e).lastSeenAt[c])
    {
      assert (es + [e])[..|es|] == es;
      HeardStep(r, e, c);
    }
  }

  lemma HeardStep(r: Relay, e: Event, c: ConnId)
    requires Inv(r) && c in Step(r, e).conns && forall d <- r.conns :: d in r.lastSeenAt
    ensures
      var q := Step(r, e);
      && c in q.lastSeenAt
      && (if Hears(r, e, c) then q.lastSeenAt[c] == TimeOf(e) else c in r.conns && q.lastSeenAt[c] == r.lastSeenAt[c])
  {
    hide Inv, Step, Receiver;
    IdsAreFresh(r);
    if e.Admitted? {
      AdmissionHears(r, e.flight, e.verdict, e.now);
    } else if e.Ping? || e.Result? || e.ExtensionEvent? {
      FramesHear(r, e);
    } else {
      OthersHear(r, e);
    }
  }

  lemma {:induction false} RunRemembers(es: seq<Event>)
    ensures Remembers(es, Exec(EMPTY, es))
    decreases |es|
  {
    if es == [] {
      assert Exec(EMPTY, es) == EMPTY;
    } else {
      hide Exec, Step, Remembers;
      var before, e := es[..|es| - 1], es[|es| - 1];
      RunRemembers(before);
      StepRemembers(before, e);
      ExecAppend(EMPTY, before, e);
      assert before + [e] == es;
    }
  }

  /**
   * The liveness sweep: after any run, a registered connection is dead after its turn if and only if the
   * last frame it was heard with is more than ninety seconds old; otherwise nothing happens.
   */
  lemma SweptExactlyWhenSilent(es: seq<Event>, c: ConnId, now: int)
    requires IsRegistered(Exec(EMPTY, es), c)
    ensures
      var r := Exec(EMPTY, es);
      var q := Step(r, Sweep(c, now));
      && LastHeard(es, c).Some?
      && (if now - LastHeard(es, c).value > 90_000 then Dead(q, c) && r.conns[c].socket in q.closed else q == r && !Dead(q, c))
  {
    hide Inv, Exec, Disconnect, LastHeard;
    RunRemembers(es);
    ReachableOk(es);
    Registry(Exec(EMPTY, es));
    DisconnectForgets(Exec(EMPTY, es), c);
    hide RegistryOk;
  }
}
