/** What one attempt to dispatch a command means for its connection: when a frame is sent, and what binds it. */
module RelayDispatch {
  import opened Options
  import opened RelayState
  import opened RelayInvariants
  import opened RelayFrames

  /** The tasks a connection has left once it goes over to another one. */
  function Left(b: Binding): set<TaskId> {
    b.retiredTaskIds + ActiveSet(b)
  }

  predicate Starts(op: Op) {
    op == Navigate || op == OpenTab
  }

  /**
   * Whether the task binding lets a command through; `idle` is that nothing is outstanding.  An unbound
   * command needs a connection that never had a task.  A bound one must not be for a retired task,
   * unless it is Stop for the active one; and its task is active, or it is a starter that takes over a
   * connection with nothing outstanding, which then has left fewer than 1024 tasks.
   */
  predicate Admissible(b: Binding, cmd: Command, idle: bool) {
    match cmd.taskId
    case None => b.activeTaskId.None? && b.retiredTaskIds == {}
    case Some(t) =>
      && (t !in b.retiredTaskIds || (cmd.op == Stop && b.activeTaskId == Some(t)))
      && (b.activeTaskId == Some(t) || (Starts(cmd.op) && idle && |Left(b)| < 1024))
  }

  /** The command goes out: it is admissible, and a fill reference only where fills are allowed. */
  predicate Goes(r: Relay, c: ConnId, conn: Conn, cmd: Command) {
    Admissible(BindingOf(r, c), cmd, PendingOf(r, c) == map[]) && (cmd.op == FillReference ==> conn.fillAllowed)
  }

  /** A starter for a task that the connection never had, when it has no room for another. */
  predicate Exhausted(r: Relay, c: ConnId, cmd: Command) {
    var b := BindingOf(r, c);
    && cmd.taskId.Some? && cmd.taskId.value !in Left(b) && Starts(cmd.op) && PendingOf(r, c) == map[] && |Left(b)| >= 1024
  }

  /** The binding a frame leaves: its task is active, retired exactly by Stop, and a task that gave way to it is retired. */
  function BoundBy(b: Binding, cmd: Command): Binding {
    match cmd.taskId
    case None => b
    case Some(t) => Binding(Some(t), b.retiredTaskIds + (ActiveSet(b) - {t}) + if cmd.op == Stop then {t} else {})
  }

  /** The one new frame, for this command on this connection: pending there with its timer armed, with the connection's epoch. */
  ghost predicate FrameSent(r: Relay, q: Relay, c: ConnId, cmd: Command) {
    && q.issued == r.issued[r.next := Sent(c, cmd.op, cmd.taskId, Get(r.controlEpoch, c, None), Call(cmd.taskId.Some?, cmd.job))]
    && r.next in PendingOf(q, c) && r.next in q.timers && q.timers[r.next] == c && q.next == r.next + 1
    && BindingOf(q, c) == BoundBy(BindingOf(r, c), cmd) && q.closed == r.closed
  }

  /** The connection is revoked, and nothing was sent. */
  ghost predicate RevokedInstead(r: Relay, q: Relay, conn: Conn) {
    q.issued == r.issued && q.next == r.next && conn.socket in q.closed && conn.socket !in q.bySocket
  }

  /** Nothing happened but that the call, if it is a queued one, is over. */
  ghost predicate Refused(r: Relay, q: Relay, cmd: Command) {
    q == r.(phase := WithPhase(r.phase, cmd.job, Done))
  }

  ghost predicate SentOrNot(r: Relay, q: Relay, c: ConnId, conn: Conn, cmd: Command) {
    if Goes(r, c, conn, cmd) then FrameSent(r, q, c, cmd)
    else if Exhausted(r, c, cmd) then RevokedInstead(r, q, conn)
    else Refused(r, q, cmd)
  }

  lemma IssuedFrame(r: Relay, c: ConnId, cmd: Command)
    ensures
      var q := Issue(r, c, cmd.op, cmd.taskId, Get(r.controlEpoch, c, None), Call(cmd.taskId.Some?, cmd.job));
      && q.issued == r.issued[r.next := Sent(c, cmd.op, cmd.taskId, Get(r.controlEpoch, c, None), Call(cmd.taskId.Some?, cmd.job))]
      && r.next in PendingOf(q, c) && r.next in q.timers && q.timers[r.next] == c && q.next == r.next + 1 && q.binding == r.binding
      && q.closed == r.closed
  {
  }

  lemma SendMeans(r: Relay, m: Relay, c: ConnId, conn: Conn, cmd: Command)
    requires m == r || m == SetBinding(r, c, BindingOf(m, c))
    requires BindingOf(m, c) == BoundBy(BindingOf(r, c), cmd) && (cmd.op == FillReference ==> conn.fillAllowed)
    ensures FrameSent(r, Send(m, c, conn.fillAllowed, cmd), c, cmd)
  {
    IssuedFrame(m, c, cmd);
    hide Issue, BoundBy;
  }

  lemma RevokedMeans(r: Relay, c: ConnId, b: Binding, conn: Conn, cmd: Command)
    ensures RevokedInstead(r, Finish(Disconnect(SetBinding(r, c, b), conn.socket), cmd.job), conn)
  {
    var m := SetBinding(r, c, b);
    DisconnectEpochs(m, conn.socket);
    DisconnectNext(m, conn.socket);
    DisconnectCloses(m, conn.socket);
    hide Disconnect;
  }

  lemma DisconnectCloses(r: Relay, s: Socket)
    ensures s in Disconnect(r, s).closed && s !in Disconnect(r, s).bySocket
  {
    hide RejectPending, WithoutSocket;
  }

  lemma RefusedMeans(r: Relay, cmd: Command)
    ensures Refused(r, Finish(r, cmd.job), cmd)
  {
  }

  /**
   * `dispatchBoundCommand` after its authority check: a frame goes out if and only if the guards hold;
   * a full connection is revoked; anything else only ends the call.
   */
  lemma BindAndSendMeans(r: Relay, c: ConnId, conn: Conn, cmd: Command)
    ensures SentOrNot(r, BindAndSend(r, c, conn, cmd), c, conn, cmd)
    ensures r.next !in r.issued ==> (BindAndSend(r, c, conn, cmd).issued != r.issued <==> Goes(r, c, conn, cmd))
  {
    hide FrameSent, RevokedInstead, Refused, Goes, Exhausted, BindAndSend;
    if cmd.taskId.None? {
      UnboundMeans(r, c, conn, cmd);
    } else {
      BoundMeans(r, c, conn, cmd);
    }
    OutcomesDiffer(r, BindAndSend(r, c, conn, cmd), c, conn, cmd);
  }

  lemma OutcomesDiffer(r: Relay, q: Relay, c: ConnId, conn: Conn, cmd: Command)
    ensures FrameSent(r, q, c, cmd) && r.next !in r.issued ==> q.issued != r.issued
    ensures RevokedInstead(r, q, conn) || Refused(r, q, cmd) ==> q.issued == r.issued
  {
    if FrameSent(r, q, c, cmd) { assert r.next in q.issued; }
  }

  lemma UnboundMeans(r: Relay, c: ConnId, conn: Conn, cmd: Command)
    requires cmd.taskId.None?
    ensures SentOrNot(r, BindAndSend(r, c, conn, cmd), c, conn, cmd)
  {
    RefusedMeans(r, cmd);
    if cmd.op == FillReference ==> conn.fillAllowed { SendMeans(r, r, c, conn, cmd); }
    hide FrameSent, RevokedInstead, Refused, Finish, Issue;
  }

  lemma BoundMeans(r: Relay, c: ConnId, conn: Conn, cmd: Command)
    requires cmd.taskId.Some?
    ensures SentOrNot(r, BindAndSend(r, c, conn, cmd), c, conn, cmd)
  {
    var b, t := BindingOf(r, c), cmd.taskId.value;
    hide BindAndSend, SentOrNot;
    if t in b.retiredTaskIds && !(cmd.op == Stop && b.activeTaskId == Some(t)) {
      RetiredMeans(r, c, conn, cmd);
    } else if b.activeTaskId != Some(t) {
      OtherTaskMeans(r, c, conn, cmd);
    } else {
      SameTaskMeans(r, c, conn, cmd);
    }
  }

  lemma LeftIsRetire(b: Binding)
    ensures Retire(b) == Left(b) && forall t: TaskId :: t in Left(b) <==> t in b.retiredTaskIds || b.activeTaskId == Some(t)
  {
  }

  lemma RetiredMeans(r: Relay, c: ConnId, conn: Conn, cmd: Command)
    requires cmd.taskId.Some? && cmd.taskId.value in BindingOf(r, c).retiredTaskIds
    requires !(cmd.op == Stop && BindingOf(r, c).activeTaskId == cmd.taskId)
    ensures SentOrNot(r, BindAndSend(r, c, conn, cmd), c, conn, cmd)
  {
    RefusedMeans(r, cmd);
    LeftIsRetire(BindingOf(r, c));
    hide FrameSent, RevokedInstead, Refused, Finish, Left, BindingOf, PendingOf;
  }

  lemma OtherTaskMeans(r: Relay, c: ConnId, conn: Conn, cmd: Command)
    requires cmd.taskId.Some? && cmd.taskId.value !in BindingOf(r, c).retiredTaskIds && BindingOf(r, c).activeTaskId != cmd.taskId
    ensures SentOrNot(r, BindAndSend(r, c, conn, cmd), c, conn, cmd)
  {
    var b := BindingOf(r, c);
    hide BindAndSend, FrameSent, RevokedInstead, Refused, Finish, Send, Disconnect, SetBinding, Retire, Left, BindingOf, PendingOf;
    OtherTaskCases(r, c, conn, cmd);
    LeftIsRetire(b);
    RevokedMeans(r, c, b.(retiredTaskIds := Retire(b)), conn, cmd);
    RefusedMeans(r, cmd);
    if Starts(cmd.op) { TakesOver(r, c, conn, cmd); }
  }

  lemma OtherTaskCases(r: Relay, c: ConnId, conn: Conn, cmd: Command)
    requires cmd.taskId.Some? && cmd.taskId.value !in BindingOf(r, c).retiredTaskIds && BindingOf(r, c).activeTaskId != cmd.taskId
    ensures
      var b := BindingOf(r, c);
      BindAndSend(r, c, conn, cmd) ==
      if !Starts(cmd.op) || PendingOf(r, c) != map[] then Finish(r, cmd.job)
      else if |Retire(b)| >= 1024 then Finish(Disconnect(SetBinding(r, c, b.(retiredTaskIds := Retire(b))), conn.socket), cmd.job)
      else Send(SetBinding(r, c, Binding(cmd.taskId, Retire(b))), c, conn.fillAllowed, cmd)
  {
    hide Finish, Send, Disconnect, SetBinding, Retire, BindingOf, PendingOf;
  }

  lemma SameTaskMeans(r: Relay, c: ConnId, conn: Conn, cmd: Command)
    requires cmd.taskId.Some? && BindingOf(r, c).activeTaskId == cmd.taskId
    requires cmd.op == Stop || cmd.taskId.value !in BindingOf(r, c).retiredTaskIds
    ensures SentOrNot(r, BindAndSend(r, c, conn, cmd), c, conn, cmd)
  {
    RefusedMeans(r, cmd);
    LeftIsRetire(BindingOf(r, c));
    if cmd.op == Stop { Retires(r, c, conn, cmd); } else { GoesOn(r, c, conn, cmd); }
    hide FrameSent, RevokedInstead, Refused, Finish, Send, Disconnect, SetBinding, Retire, Left, BindingOf, PendingOf;
  }

  /** A starter takes the connection over for its task. */
  lemma TakesOver(r: Relay, c: ConnId, conn: Conn, cmd: Command)
    requires cmd.taskId.Some? && Starts(cmd.op) && BindingOf(r, c).activeTaskId != cmd.taskId
    ensures FrameSent(r, Send(SetBinding(r, c, Binding(cmd.taskId, Retire(BindingOf(r, c)))), c, conn.fillAllowed, cmd), c, cmd)
  {
    var b := BindingOf(r, c);
    var m := SetBinding(r, c, Binding(cmd.taskId, Retire(b)));
    hide FrameSent, Send;
    assert ActiveSet(b) - {cmd.taskId.value} == ActiveSet(b);
    assert BindingOf(m, c) == BoundBy(b, cmd);
    SendMeans(r, m, c, conn, cmd);
  }

  /** Stop retires the task it is for. */
  lemma Retires(r: Relay, c: ConnId, conn: Conn, cmd: Command)
    requires cmd.taskId.Some? && cmd.op == Stop && BindingOf(r, c).activeTaskId == cmd.taskId
    ensures
      var b := BindingOf(r, c);
      FrameSent(r, Send(SetBinding(r, c, b.(retiredTaskIds := b.retiredTaskIds + {cmd.taskId.value})), c, conn.fillAllowed, cmd), c, cmd)
  {
    var b := BindingOf(r, c);
    var m := SetBinding(r, c, b.(retiredTaskIds := b.retiredTaskIds + {cmd.taskId.value}));
    hide FrameSent, Send;
    assert ActiveSet(b) - {cmd.taskId.value} == {};
    assert BindingOf(m, c) == BoundBy(b, cmd);
    SendMeans(r, m, c, conn, cmd);
  }

  /** A command for the active task, or a fill that is not allowed. */
  lemma GoesOn(r: Relay, c: ConnId, conn: Conn, cmd: Command)
    requires cmd.taskId.Some? && cmd.op != Stop && BindingOf(r, c).activeTaskId == cmd.taskId
    ensures
      var q := Send(r, c, conn.fillAllowed, cmd);
      if cmd.op == FillReference && !conn.fillAllowed then q == Finish(r, cmd.job) else FrameSent(r, q, c, cmd)
  {
    var b := BindingOf(r, c);
    assert b.retiredTaskIds + (ActiveSet(b) - {cmd.taskId.value}) + {} == b.retiredTaskIds;
    if !(cmd.op == FillReference && !conn.fillAllowed) { SendMeans(r, r, c, conn, cmd); }
  }

  /**
   * `dispatchBoundCommand` up to its first `await`.  Nothing but Stop is sent before the authority has
   * been asked: the command waits, with the connection it found.  Without a connection the only thing
   * that happens is that an unbound Stop is queued.
   */
  ghost predicate AskedFirst(r: Relay, q: Relay, cmd: Command) {
    if cmd.key !in r.byConnection || r.byConnection[cmd.key] !in r.conns then OnlyQueued(r, q, cmd)
    else
      var c := r.byConnection[cmd.key];
      if cmd.op == Stop then SentOrNot(r, q, c, r.conns[c], cmd) else OnlyAsked(r, q, c, cmd)
  }

  ghost predicate OnlyQueued(r: Relay, q: Relay, cmd: Command) {
    if cmd.op == Stop && cmd.taskId.None?
    then
      Refused(r.(pendingStops := r.pendingStops + {cmd.key}, terminalByConnection := r.terminalByConnection[cmd.key := Stopped]), q, cmd)
    else Refused(r, q, cmd)
  }

  ghost predicate OnlyAsked(r: Relay, q: Relay, c: ConnId, cmd: Command) {
    q == r.(flights := r.flights[r.next := DispatchFlight(c, cmd)], next := r.next + 1,
            phase := WithPhase(r.phase, cmd.job, Checking(r.next)))
  }

  lemma QueuedMeans(r: Relay, cmd: Command)
    ensures OnlyQueued(r, if cmd.op == Stop && cmd.taskId.None? then Finish(QueueStop(r, cmd.key), cmd.job) else Finish(r, cmd.job), cmd)
  {
  }

  lemma AskedMeans(r: Relay, c: ConnId, cmd: Command)
    ensures OnlyAsked(r, AddFlight(r.(phase := WithPhase(r.phase, cmd.job, Checking(r.next))), DispatchFlight(c, cmd)), c, cmd)
  {
  }

  lemma DispatchBoundMeans(r: Relay, cmd: Command)
    ensures AskedFirst(r, DispatchBound(r, cmd), cmd)
  {
    hide BindAndSend, SentOrNot, OnlyAsked, OnlyQueued, AddFlight, WithPhase, QueueStop, Finish;
    QueuedMeans(r, cmd);
    if cmd.key in r.byConnection { AskedMeans(r, r.byConnection[cmd.key], cmd); }
    if cmd.key in r.byConnection && r.byConnection[cmd.key] in r.conns && cmd.op == Stop {
      BindAndSendMeans(r, r.byConnection[cmd.key], r.conns[r.byConnection[cmd.key]], cmd);
    }
  }
}
