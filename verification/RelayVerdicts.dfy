/** What the authority's verdicts do: a refusal ends a connection, and no command but Stop is sent without a grant. */
module RelayVerdicts {
  import opened Options
  import opened RelayState
  import opened RelayInvariants
  import opened RelayProofs
  import opened RelaySteps
  import opened RelayTheorems
  import opened RelayHistory
  import opened RelayFrames
  import opened RelayDispatch

  // ---------------------------------------------------------------- refusals

  lemma DisconnectForgets(m: Relay, c: ConnId)
    requires RegistryOk(m.conns, m.byConnection, m.bySocket, m.closed) && c in m.conns
    ensures var q := Disconnect(m, m.conns[c].socket); Dead(q, c) && q.issued == m.issued && m.conns[c].socket in q.closed
  {
    hide RejectPending, Unregister;
    var s := m.conns[c].socket;
    if s in m.bySocket { RejectLeaves(m, m.bySocket[s]); }
    UnregisterRegistry(if s in m.bySocket then RejectPending(m, m.bySocket[s]) else m, s);
    UnregisterSends(if s in m.bySocket then RejectPending(m, m.bySocket[s]) else m, s);
  }

  lemma UnregisterSends(r: Relay, s: Socket)
    ensures Unregister(r, s).issued == r.issued && Unregister(r, s).conns == r.conns
  {
    hide WithoutSocket;
  }

  /** A handler that waits for a verdict waits on a connection that exists. */
  lemma FlightKnown(r: Relay, f: FlightId)
    requires Inv(r) && f in r.flights && !r.flights[f].HelloFlight?
    ensures r.flights[f].conn in r.conns && RegistryOk(r.conns, r.byConnection, r.bySocket, r.closed)
    ensures Current(r, r.flights[f].conn) <==> IsRegistered(r, r.flights[f].conn)
  {
    hide FreshOk, TerminalOk, PendingOk, NoStrandedOk, FramesOk, SettledOk, RetriesOk,
         CallsOk, HoldersOk, ChainOk, LaneOk, BindingOk, OrderOk, SubmissionOrderOk, NoReturnOk, StopsOk, QuietOk;
  }

  /**
   * A refusal is final: whoever waited for it sends nothing, and the connection is dead from then on.
   * A refused renewal or safety check of a connection that is no longer registered changes nothing else.
   */
  lemma DeniedIsDead(es: seq<Event>, f: FlightId, later: seq<Event>)
    requires f in Exec(EMPTY, es).flights && !Exec(EMPTY, es).flights[f].HelloFlight?
    ensures
      var r := Exec(EMPTY, es);
      var q, c := Step(r, Checked(f, false)), r.flights[f].conn;
      var n := Exec(q, later);
      && q.issued == r.issued && Dead(q, c)
      && (IsRegistered(r, c) ==> r.conns[c].socket in q.closed)
      && (!IsRegistered(r, c) && (r.flights[f].RenewFlight? || r.flights[f].SafetyFlight?) ==> q == r.(flights := r.flights - {f}))
      && Dead(n, c) && forall id <- n.issued :: n.issued[id].conn == c ==> id in r.issued
  {
    hide Mid, Exec, Step, Dead;
    ReachableOk(es);
    var r := Exec(EMPTY, es);
    FlightKnown(r, f);
    DeniedStep(r, f);
    ExecAppend(EMPTY, es, Checked(f, false));
    DeadConnectionIsSilent(es + [Checked(f, false)], later, r.flights[f].conn);
  }

  lemma DeniedStep(r: Relay, f: FlightId)
    requires f in r.flights && !r.flights[f].HelloFlight? && r.flights[f].conn in r.conns
    requires RegistryOk(r.conns, r.byConnection, r.bySocket, r.closed)
    requires Current(r, r.flights[f].conn) <==> IsRegistered(r, r.flights[f].conn)
    ensures
      var q, c := Step(r, Checked(f, false)), r.flights[f].conn;
      && q.issued == r.issued && Dead(q, c)
      && (IsRegistered(r, c) ==> r.conns[c].socket in q.closed)
      && (!IsRegistered(r, c) && (r.flights[f].RenewFlight? || r.flights[f].SafetyFlight?) ==> q == r.(flights := r.flights - {f}))
  {
    hide RegistryOk, Disconnect, BindAndSend, Settle, SetTerminal, SetRunning, Finish, Current, Dead, Registered;
    var c := r.flights[f].conn;
    var m := r.(flights := r.flights - {f});
    DisconnectForgets(m, c);
    StillCurrent(r, m, c);
    match r.flights[f] {
      case DispatchFlight(_, cmd) =>
        RunningRegistry(m, cmd.job);
        DisconnectForgets(SetRunning(m, cmd.job), c);
        FinishedDead(Disconnect(SetRunning(m, cmd.job), r.conns[c].socket), cmd.job, c);
      case _ => if !IsRegistered(r, c) { NotRegisteredIsDead(r, m, c); }
    }
  }

  lemma RunningRegistry(r: Relay, job: Option<JobId>)
    ensures var q := SetRunning(r, job); q.conns == r.conns && q.byConnection == r.byConnection && q.bySocket == r.bySocket && q.closed == r.closed && q.issued == r.issued
  {
  }

  lemma FinishedDead(r: Relay, job: Option<JobId>, c: ConnId)
    ensures var q := Finish(r, job); q.issued == r.issued && q.closed == r.closed && (Dead(r, c) ==> Dead(q, c))
  {
  }

  lemma NotRegisteredIsDead(r: Relay, m: Relay, c: ConnId)
    requires m.conns == r.conns && m.byConnection == r.byConnection && c in r.conns && !IsRegistered(r, c)
    ensures Dead(m, c)
  {
  }

  // ---------------------------------------------------------------- grants

  /** The step in which this frame was sent: a granted check for this very command, made on this registered connection. */
  ghost predicate Authorised(r: Relay, e: Event, s: Sent) {
    && e.Checked? && e.verdict && e.flight in r.flights && r.flights[e.flight].DispatchFlight?
    && IsRegistered(r, s.conn) && r.flights[e.flight].conn == s.conn
    && var cmd := r.flights[e.flight].command;
       cmd.op == s.op && cmd.taskId == s.taskId && s.resolver == Call(cmd.taskId.Some?, cmd.job)
  }

  /** Frames that were there before, and otherwise only Stops: the relay's own deliveries and `dispatchBoundCommand`'s. */
  ghost predicate OnlyStops(sent: map<CommandId, Sent>, later: map<CommandId, Sent>) {
    forall id <- later :: (id in sent && later[id] == sent[id]) || later[id].resolver.Delivery? || later[id].op == Stop
  }

  lemma SameStops(sent: map<CommandId, Sent>)
    ensures OnlyStops(sent, sent)
  {
  }

  lemma RetryStops(r: Relay, c: ConnId)
    ensures OnlyStops(r.issued, Retry(r, c).issued)
  {
    hide PendingOf, WithPhase;
  }

  lemma DispatchStops(r: Relay, cmd: Command)
    ensures OnlyStops(r.issued, DispatchBound(r, cmd).issued)
  {
    hide BindAndSend, OnlyStops, SentOrNot, Finish, QueueStop, AddFlight, WithPhase;
    SameStops(r.issued);
    FinishSends(r, cmd.job, cmd.key);
    if cmd.key in r.byConnection && r.byConnection[cmd.key] in r.conns {
      var c := r.byConnection[cmd.key];
      CheckSends(r, cmd.job, DispatchFlight(c, cmd));
      BindAndSendMeans(r, c, r.conns[c], cmd);
      if cmd.op == Stop { StopOutcomes(r, BindAndSend(r, c, r.conns[c], cmd), c, r.conns[c], cmd); }
    }
  }

  lemma FinishSends(r: Relay, job: Option<JobId>, k: Key)
    ensures Finish(r, job).issued == r.issued && Finish(QueueStop(r, k), job).issued == r.issued
  {
  }

  lemma CheckSends(r: Relay, job: Option<JobId>, f: Flight)
    ensures AddFlight(r.(phase := WithPhase(r.phase, job, Checking(r.next))), f).issued == r.issued
  {
  }

  lemma StopOutcomes(r: Relay, q: Relay, c: ConnId, conn: Conn, cmd: Command)
    requires SentOrNot(r, q, c, conn, cmd) && cmd.op == Stop
    ensures OnlyStops(r.issued, q.issued)
  {
    OutcomesDiffer(r, q, c, conn, cmd);
    hide Goes, Exhausted, BoundBy, RevokedInstead, Refused;
  }

  lemma RunJobStops(r: Relay, j: JobId)
    requires j in r.jobs
    ensures OnlyStops(r.issued, RunJob(r, j).issued)
  {
    hide DispatchBound, OnlyStops;
    var job := r.jobs[j];
    SameStops(r.issued);
    DispatchStops(r, Command(job.key, Some(job.taskId), job.op, Some(j)));
  }

  lemma TimeoutStops(r: Relay, id: CommandId)
    requires Armed(r, id)
    ensures OnlyStops(r.issued, CommandTimeout(r, id).issued)
  {
    hide Settle, Retry, Disconnect, OnlyStops;
    var c := r.timers[id];
    var m := Settle(r, c, r.conns[c].key, id, Expired);
    SettleEpochs(r, c, r.conns[c].key, id, Expired);
    RetryStops(m, c);
    DisconnectEpochs(m, r.conns[c].socket);
    SameStops(r.issued);
  }

  lemma ResultSends(r: Relay, s: Socket, id: CommandId, ok: bool, now: int)
    ensures ResultFrame(r, s, id, ok, now).issued == r.issued
  {
    hide Settle, Current, SetTerminal, Receiver, AddFlight, Touch;
    if Receiver(r, s).Some? {
      ReceiverExists(r, s);
      var c := Receiver(r, s).value;
      if id in PendingOf(Touch(r, c, now), c) { AnswerSends(Touch(r, c, now), c, r.conns[c].key, id, ok); }
      TouchSends(r, c, now, ResultFlight(c, id, ok));
    }
  }

  lemma TouchSends(r: Relay, c: ConnId, now: int, f: Flight)
    ensures Touch(r, c, now).issued == r.issued && AddFlight(Touch(r, c, now), f).issued == r.issued
  {
  }

  lemma AnswerSends(t: Relay, c: ConnId, k: Key, id: CommandId, ok: bool)
    requires id in PendingOf(t, c)
    ensures
      var u := if ok then SetTerminal(Settle(t, c, k, id, AnsweredOk), c, k, Some(Stopped)) else Settle(t, c, k, id, AnsweredFailed);
      AddFlight(u, SafetyFlight(c)).issued == t.issued
  {
    hide Settle, SetTerminal;
    SettleEpochs(t, c, k, id, AnsweredOk);
    TerminalEpochs(Settle(t, c, k, id, AnsweredOk), c, k, Some(Stopped));
    SettleEpochs(t, c, k, id, AnsweredFailed);
  }

  lemma OtherStops(r: Relay, e: Event)
    requires !e.Checked? && !e.Hello? && !e.Admitted? && !e.ExtensionEvent?
    ensures OnlyStops(r.issued, Step(r, e).issued)
  {
    hide OnlyStops, ResultFrame, DispatchBound, Submit, RunJob, CommandTimeout, Retry, Disconnect, Armed, MayStart;
    SameStops(r.issued);
    match e {
      case Result(s, id, ok, now) => ResultSends(r, s, id, ok, now);
      case SocketClosed(s) => DisconnectEpochs(r, s);
      case CallUnbound(k, op) => DispatchStops(r, Command(k, None, op, None));
      case CallBound(k, t, op) => SubmitStops(r, k, t, op);
      case TailResolved(j) => StartStops(r, j);
      case TimerFired(id) => if Armed(r, id) { TimeoutStops(r, id); }
      case RetryFired(c) => RetryStops(r.(retries := r.retries - multiset{c}), c);
      case Sweep(c, now) => if IsRegistered(r, c) { DisconnectEpochs(r, r.conns[c].socket); }
      case _ =>
    }
  }

  lemma SubmitStops(r: Relay, k: Key, t: TaskId, op: Op)
    ensures OnlyStops(r.issued, Submit(r, k, t, op).issued)
  {
    hide RunJob, OnlyStops;
    SameStops(r.issued);
    RunJobStops(AddJob(r, k, t, op), r.next);
  }

  lemma StartStops(r: Relay, j: JobId)
    ensures MayStart(r, j) ==> OnlyStops(r.issued, RunJob(SetRunning(r, Some(j)), j).issued)
  {
    hide RunJob, OnlyStops;
    if MayStart(r, j) { RunJobStops(SetRunning(r, Some(j)), j); }
  }

  /** A new frame of a granted check is the command that waited for it. */
  lemma GrantedSends(r: Relay, f: FlightId, id: CommandId)
    requires f in r.flights && !r.flights[f].HelloFlight? && r.flights[f].conn in r.conns
    requires Current(r, r.flights[f].conn) ==> IsRegistered(r, r.flights[f].conn)
    requires id in Step(r, Checked(f, true)).issued && id !in r.issued
    ensures Authorised(r, Checked(f, true), Step(r, Checked(f, true)).issued[id])
  {
    hide BindAndSend, Settle, Current, SetTerminal, Goes, Exhausted, BoundBy, Refused, RevokedInstead;
    var c := r.flights[f].conn;
    var m := r.(flights := r.flights - {f});
    match r.flights[f] {
      case ResultFlight(_, x, ok) =>
        if x in PendingOf(m, c) {
          TerminalEpochs(m, c, r.conns[c].key, None);
          TerminalPending(m, c, r.conns[c].key, None);
          SettleEpochs(SetTerminal(m, c, r.conns[c].key, None), c, r.conns[c].key, x, AnsweredOk);
          SettleEpochs(m, c, r.conns[c].key, x, AnsweredFailed);
        }
      case DispatchFlight(_, cmd) =>
        var running := SetRunning(m, cmd.job);
        BindAndSendMeans(running, c, r.conns[c], cmd);
        StillCurrent(r, running, c);
        OutcomesKeep(running, BindAndSend(running, c, r.conns[c], cmd), c, r.conns[c], cmd);
      case _ =>
    }
  }

  lemma TerminalPending(r: Relay, c: ConnId, k: Key, event: Option<Terminal>)
    ensures SetTerminal(r, c, k, event).pending == r.pending
  {
  }

  lemma StillCurrent(r: Relay, q: Relay, c: ConnId)
    requires q.conns == r.conns && q.closed == r.closed && q.bySocket == r.bySocket && q.byConnection == r.byConnection
    ensures Current(q, c) == Current(r, c)
  {
  }

  lemma OutcomesKeep(r: Relay, q: Relay, c: ConnId, conn: Conn, cmd: Command)
    requires SentOrNot(r, q, c, conn, cmd)
    ensures forall id <- q.issued :: id in r.issued || (q.issued[id].conn == c && q.issued[id].op == cmd.op && q.issued[id].taskId == cmd.taskId
                                                       && q.issued[id].resolver == Call(cmd.taskId.Some?, cmd.job))
  {
    OutcomesDiffer(r, q, c, conn, cmd);
    hide Goes, Exhausted, BoundBy, RevokedInstead, Refused;
  }

  /** A step sends nothing but Stops, or it is a granted check and sends the command that waited for it. */
  lemma StepAuthorises(r: Relay, e: Event, id: CommandId)
    requires Inv(r) && id in Step(r, e).issued && id !in r.issued
    ensures
      var s := Step(r, e).issued[id];
      s.resolver.Call? && s.op != Stop ==> Authorised(r, e, s)
  {
    hide Mid, Step, Authorised, Forward, SaysHello, Dead;
    var q := Step(r, e);
    match e {
      case Hello(s, identity, fillAllowed) =>
        HelloEpochs(r, s, identity, fillAllowed);
        HelloSends(r, s, identity, fillAllowed);
      case Admitted(f, verdict, now) => AdmissionSetsNoEpoch(r, f, verdict, now);
      case ExtensionEvent(s, kind, epoch, now) => StoppedSetsTheEpoch(r, s, kind, epoch, now);
      case Checked(f, verdict) => CheckedAuthorises(r, f, verdict, id);
      case _ => OtherStops(r, e);
    }
  }

  lemma HelloSends(r: Relay, s: Socket, identity: Option<Key>, fillAllowed: bool)
    ensures Step(r, Hello(s, identity, fillAllowed)).issued == r.issued
  {
    hide Disconnect;
    DisconnectEpochs(r, s);
  }

  lemma CheckedAuthorises(r: Relay, f: FlightId, verdict: bool, id: CommandId)
    requires Inv(r) && id in Step(r, Checked(f, verdict)).issued && id !in r.issued
    ensures Authorised(r, Checked(f, verdict), Step(r, Checked(f, verdict)).issued[id])
  {
    hide Mid, CheckResume, Authorised, Dead;
    assert f in r.flights && !r.flights[f].HelloFlight?;
    hide Step;
    FlightKnown(r, f);
    if verdict { GrantedSends(r, f, id); } else { DeniedStep(r, f); }
  }

  /** In this run, the frame was sent by the grant of a check made for it. */
  ghost predicate SentOnGrant(es: seq<Event>, s: Sent) {
    exists n: nat :: n < |es| && Authorised(Exec(EMPTY, es[..n]), es[n], s)
  }

  /**
   * The authority guards every command: in every run, each command frame but Stop and the relay's own
   * deliveries was sent by the grant of a check that was made for that very command, on the connection
   * it was sent to, and while that connection was registered.
   */
  lemma {:induction false} CommandsWereGranted(es: seq<Event>)
    ensures forall id <- Exec(EMPTY, es).issued :: OnGrant(es, Exec(EMPTY, es).issued[id])
    decreases |es|
  {
    if es != [] {
      hide Exec, Step, OnGrant;
      var before, e := es[..|es| - 1], es[|es| - 1];
      CommandsWereGranted(before);
      ExecAppend(EMPTY, before, e);
      assert before + [e] == es;
      forall id | id in Exec(EMPTY, es).issued ensures OnGrant(es, Exec(EMPTY, es).issued[id]) {
        OneMoreStep(before, e, id);
      }
    }
  }

  ghost predicate OnGrant(es: seq<Event>, s: Sent) {
    s.resolver.Call? && s.op != Stop ==> SentOnGrant(es, s)
  }

  lemma OneMoreStep(es: seq<Event>, e: Event, id: CommandId)
    requires id in Step(Exec(EMPTY, es), e).issued
    requires id in Exec(EMPTY, es).issued ==> OnGrant(es, Exec(EMPTY, es).issued[id])
    ensures OnGrant(es + [e], Step(Exec(EMPTY, es), e).issued[id])
  {
    hide Exec, Step, Mid, Authorised, SentOnGrant, Dead;
    var r := Exec(EMPTY, es);
    ReachableOk(es);
    var s := Step(r, e).issued[id];
    if id in r.issued {
      StepFuture(r, e);
      if s.resolver.Call? && s.op != Stop { LaterGrant(es, e, s); }
    } else if s.resolver.Call? && s.op != Stop {
      StepAuthorises(r, e, id);
      GrantNow(es, e, s);
    }
  }

  lemma LaterGrant(es: seq<Event>, e: Event, s: Sent)
    requires SentOnGrant(es, s)
    ensures SentOnGrant(es + [e], s)
  {
    hide Exec, Authorised;
    var n: nat :| n < |es| && Authorised(Exec(EMPTY, es[..n]), es[n], s);
    assert (es + [e])[..n] == es[..n];
    assert Authorised(Exec(EMPTY, (es + [e])[..n]), (es + [e])[n], s);
  }

  lemma GrantNow(es: seq<Event>, e: Event, s: Sent)
    requires Authorised(Exec(EMPTY, es), e, s)
    ensures SentOnGrant(es + [e], s)
  {
    hide Exec, Authorised;
    var n := |es|;
    assert (es + [e])[..n] == es;
    assert Authorised(Exec(EMPTY, (es + [e])[..n]), (es + [e])[n], s);
  }
}
