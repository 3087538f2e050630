/** The relay's invariants over every run. */
module RelaySteps {
  import opened Options
  import opened RelayState
  import opened RelayInvariants
  import opened RelayProofs

  // ---------------------------------------------------------------- task binding

  lemma SetBindingKeeps(r: Relay, c: ConnId, b: Binding, hole: set<Key>, running: set<JobId>)
    requires Mid(r, hole, running) && OneBindingOk(b)
    requires forall id <- r.issued :: r.issued[id].conn == c ==> BoundFrameOk(b, r.issued[id])
    requires forall x, y | x in r.issued && y in r.issued && x < y && r.issued[x].conn == c && r.issued[y].conn == c
                           && r.issued[x].resolver.Call? && r.issued[y].resolver.Call? :: InOrder(b, r.issued[x], r.issued[y])
    ensures Mid(SetBinding(r, c, b), hole, running)
  {
    hide FreshOk, RegistryOk, TerminalOk, PendingOk, NoStrandedOk, FramesOk, SettledOk, RetriesOk, FlightsOk,
         CallsOk, HoldersOk, ChainOk, LaneOk, BindingOk, OrderOk, SubmissionOrderOk, NoReturnOk, StopsOk, QuietOk;
    hide OneBindingOk, BoundFrameOk, InOrder;
    SetBindingTable(r.binding, r.issued, c, b);
  }

  /** What is known of the frames sent on one connection. */
  ghost predicate History(b: Binding, issued: map<CommandId, Sent>, c: ConnId) {
    && (forall id <- issued :: issued[id].conn == c ==> BoundFrameOk(b, issued[id]))
    && (forall x, y | x in issued && y in issued && x < y && issued[x].conn == c && issued[y].conn == c
                      && issued[x].resolver.Call? && issued[y].resolver.Call? :: InOrder(b, issued[x], issued[y]))
  }

  lemma KnownHistory(r: Relay, c: ConnId)
    requires BindingOk(r.binding, r.issued) && OrderOk(r.binding, r.issued)
    ensures OneBindingOk(BindingOf(r, c)) && History(BindingOf(r, c), r.issued, c)
  {
    FreshBinding();
    hide OneBindingOk, BoundFrameOk, InOrder;
  }

  /** Retiring more tasks, with the same task active, invalidates nothing sent before. */
  lemma GrowBinding(b: Binding, b': Binding, issued: map<CommandId, Sent>, c: ConnId)
    requires OneBindingOk(b) && History(b, issued, c)
    requires b'.activeTaskId == b.activeTaskId && b.activeTaskId.Some? && b'.retiredTaskIds == b.retiredTaskIds + {b.activeTaskId.value}
    ensures OneBindingOk(b') && History(b', issued, c)
  {
    assert b'.retiredTaskIds - ActiveSet(b') == b.retiredTaskIds - ActiveSet(b);
  }

  /** Retiring the active task keeps every earlier frame in order, and none of them names a task that is neither active nor retired. */
  lemma NewBindingOrder(b: Binding, t: TaskId, issued: map<CommandId, Sent>, c: ConnId)
    requires OneBindingOk(b) && History(b, issued, c) && t !in b.retiredTaskIds && b.activeTaskId != Some(t)
    ensures History(Binding(Some(t), Retire(b)), issued, c)
    ensures forall id <- issued :: issued[id].conn == c ==> issued[id].taskId != Some(t)
  {
    var b' := Binding(Some(t), Retire(b));
    forall id <- issued | issued[id].conn == c
      ensures BoundFrameOk(b', issued[id]) && issued[id].taskId != Some(t)
    {
    }
    forall x, y | x in issued && y in issued && x < y && issued[x].conn == c && issued[y].conn == c
                  && issued[x].resolver.Call? && issued[y].resolver.Call?
      ensures InOrder(b', issued[x], issued[y])
    {
      assert InOrder(b, issued[x], issued[y]);
    }
  }

  lemma NewBindingOk(b: Binding, t: TaskId)
    requires OneBindingOk(b) && t !in b.retiredTaskIds && b.activeTaskId != Some(t) && |Retire(b)| < RETIRED_LIMIT
    ensures OneBindingOk(Binding(Some(t), Retire(b)))
  {
    assert Retire(b) - {t} == Retire(b);
  }

  /** Binding a task that is neither active nor retired. */
  lemma NewBinding(b: Binding, t: TaskId, issued: map<CommandId, Sent>, c: ConnId)
    requires OneBindingOk(b) && History(b, issued, c) && t !in b.retiredTaskIds && b.activeTaskId != Some(t)
    requires |Retire(b)| < RETIRED_LIMIT
    ensures OneBindingOk(Binding(Some(t), Retire(b))) && History(Binding(Some(t), Retire(b)), issued, c)
    ensures forall s: Sent :: s.conn == c && s.taskId == Some(t) && s.op != Stop ==> MaySend(Binding(Some(t), Retire(b)), issued, s)
  {
    var b' := Binding(Some(t), Retire(b));
    NewBindingOk(b, t);
    NewBindingOrder(b, t, issued, c);
    forall s: Sent | s.conn == c && s.taskId == Some(t) && s.op != Stop ensures MaySend(b', issued, s) {
      NewTaskMaySend(b', issued, s);
    }
  }

  /** The first frame of a newly bound task. */
  lemma NewTaskMaySend(b: Binding, issued: map<CommandId, Sent>, s: Sent)
    requires History(b, issued, s.conn) && s.taskId.Some? && b.activeTaskId == s.taskId && s.op != Stop
    requires forall id <- issued :: issued[id].conn == s.conn ==> issued[id].taskId != s.taskId
    ensures MaySend(b, issued, s)
  {
  }

  /** A further frame for the active task: any, or only Stop once it has been stopped. */
  lemma SameTaskMaySend(b: Binding, t: TaskId, issued: map<CommandId, Sent>, s: Sent)
    requires History(b, issued, s.conn) && b.activeTaskId == Some(t) && s.taskId == Some(t)
    requires if s.op == Stop then t in b.retiredTaskIds else t !in b.retiredTaskIds
    ensures MaySend(b, issued, s)
  {
  }

  lemma UnboundMaySend(b: Binding, issued: map<CommandId, Sent>, s: Sent)
    requires History(b, issued, s.conn) && b.activeTaskId.None? && b.retiredTaskIds == {} && s.taskId.None?
    ensures MaySend(b, issued, s)
  {
  }

  // ---------------------------------------------------------------- dispatch

  lemma DisconnectRunning(r: Relay, s: Socket, job: Option<JobId>)
    requires PendingOk(r.pending, r.timers) && FramesOk(r.pending, r.timers, r.issued)
    requires HoldersOk(r.flights, r.issued, r.timers, r.jobs, r.phase) && IsRunning(r.phase, job)
    ensures IsRunning(Disconnect(r, s).phase, job)
  {
    hide FreshOk, RegistryOk, TerminalOk, PendingOk, NoStrandedOk, FramesOk, SettledOk, RetriesOk, FlightsOk,
         CallsOk, HoldersOk, ChainOk, LaneOk, BindingOk, OrderOk, SubmissionOrderOk, NoReturnOk, StopsOk, QuietOk;
    hide FinishAll, JobsOf, IsRunning;
    if s in r.bySocket {
      var c := r.bySocket[s];
      RejectHolders(r.pending, r.timers, r.flights, r.issued, r.jobs, r.phase, c);
      StillRunning(r.phase, JobsOf(Get(r.pending, c, map[])), job);
    }
  }

  lemma StillRunning(phase: map<JobId, Phase>, done: set<JobId>, job: Option<JobId>)
    requires IsRunning(phase, job) && forall j <- done :: j in phase && phase[j].OnWire?
    ensures IsRunning(FinishAll(phase, done), job)
  {
  }

  lemma DisconnectAndFinishKeeps(r: Relay, s: Socket, job: Option<JobId>, running: set<JobId>)
    requires Mid(r, {}, running) && IsRunning(r.phase, job)
    ensures Mid(Finish(Disconnect(r, s), job), {}, Without(running, job))
  {
    hide FreshOk, RegistryOk, TerminalOk, PendingOk, NoStrandedOk, FramesOk, SettledOk, RetriesOk, FlightsOk,
         CallsOk, HoldersOk, ChainOk, LaneOk, BindingOk, OrderOk, SubmissionOrderOk, NoReturnOk, StopsOk, QuietOk;
    DisconnectKeeps(r, s, {}, running);
    DisconnectRunning(r, s, job);
    hide Mid;
    FinishKeeps(Disconnect(r, s), job, {}, running);
  }

  lemma BindAndSendKeeps(r: Relay, c: ConnId, cmd: Command, running: set<JobId>)
    requires Mid(r, {}, running) && IsRegistered(r, c) && CommandOk(r.conns, r.jobs, c, cmd) && IsRunning(r.phase, cmd.job)
    ensures Mid(BindAndSend(r, c, r.conns[c], cmd), {}, Without(running, cmd.job))
  {
    hide FreshOk, RegistryOk, TerminalOk, PendingOk, NoStrandedOk, FramesOk, SettledOk, RetriesOk, FlightsOk,
         CallsOk, HoldersOk, ChainOk, LaneOk, BindingOk, OrderOk, SubmissionOrderOk, NoReturnOk, StopsOk, QuietOk;
    hide OneBindingOk, History, CommandOk, MaySend, BoundFrameOk, InOrder;
    var conn, b := r.conns[c], BindingOf(r, c);
    var s := Sent(c, cmd.op, cmd.taskId, Get(r.controlEpoch, c, None), Call(cmd.taskId.Some?, cmd.job));
    KnownHistory(r, c);
    FinishKeeps(r, cmd.job, {}, running);
    match cmd.taskId {
      case None =>
        if b.activeTaskId.None? && b.retiredTaskIds == {} {
          UnboundMaySend(b, r.issued, s);
          SendKeeps(r, c, conn.fillAllowed, cmd, {}, running);
        }
      case Some(t) =>
        if t in b.retiredTaskIds && !(cmd.op == Stop && b.activeTaskId == Some(t)) {
        } else if b.activeTaskId == Some(t) {
          ActiveTaskKeeps(r, c, cmd, running);
        } else if (cmd.op == Navigate || cmd.op == OpenTab) && PendingOf(r, c) == map[] {
          NewTaskKeeps(r, c, cmd, running);
        }
    }
  }

  lemma ActiveTaskKeeps(r: Relay, c: ConnId, cmd: Command, running: set<JobId>)
    requires Mid(r, {}, running) && IsRegistered(r, c) && CommandOk(r.conns, r.jobs, c, cmd) && IsRunning(r.phase, cmd.job)
    requires cmd.taskId.Some? && BindingOf(r, c).activeTaskId == cmd.taskId
    requires cmd.taskId.value in BindingOf(r, c).retiredTaskIds ==> cmd.op == Stop
    ensures
      var b, fill, t := BindingOf(r, c), r.conns[c].fillAllowed, cmd.taskId.value;
      && (cmd.op == Stop ==> Mid(Send(SetBinding(r, c, b.(retiredTaskIds := b.retiredTaskIds + {t})), c, fill, cmd), {}, Without(running, cmd.job)))
      && (cmd.op != Stop ==> Mid(Send(r, c, fill, cmd), {}, Without(running, cmd.job)))
  {
    hide FreshOk, RegistryOk, TerminalOk, PendingOk, NoStrandedOk, FramesOk, SettledOk, RetriesOk, FlightsOk,
         CallsOk, HoldersOk, ChainOk, LaneOk, BindingOk, OrderOk, SubmissionOrderOk, NoReturnOk, StopsOk, QuietOk;
    hide OneBindingOk, CommandOk, MaySend, BoundFrameOk, InOrder;
    var b := BindingOf(r, c);
    var s := Sent(c, cmd.op, cmd.taskId, Get(r.controlEpoch, c, None), Call(cmd.taskId.Some?, cmd.job));
    KnownHistory(r, c);
    if cmd.op == Stop {
      var b' := b.(retiredTaskIds := b.retiredTaskIds + {cmd.taskId.value});
      GrowBinding(b, b', r.issued, c);
      SetBindingKeeps(r, c, b', {}, running);
      SameTaskMaySend(b', cmd.taskId.value, r.issued, s);
      SendKeeps(SetBinding(r, c, b'), c, r.conns[c].fillAllowed, cmd, {}, running);
    } else {
      SameTaskMaySend(b, cmd.taskId.value, r.issued, s);
      SendKeeps(r, c, r.conns[c].fillAllowed, cmd, {}, running);
    }
  }

  lemma NewTaskKeeps(r: Relay, c: ConnId, cmd: Command, running: set<JobId>)
    requires Mid(r, {}, running) && IsRegistered(r, c) && CommandOk(r.conns, r.jobs, c, cmd) && IsRunning(r.phase, cmd.job)
    requires cmd.taskId.Some? && cmd.op != Stop && BindingOf(r, c).activeTaskId != cmd.taskId
    requires cmd.taskId.value !in BindingOf(r, c).retiredTaskIds
    ensures
      var b, conn := BindingOf(r, c), r.conns[c];
      if |Retire(b)| >= RETIRED_LIMIT
      then Mid(Finish(Disconnect(SetBinding(r, c, b.(retiredTaskIds := Retire(b))), conn.socket), cmd.job), {}, Without(running, cmd.job))
      else Mid(Send(SetBinding(r, c, Binding(cmd.taskId, Retire(b))), c, conn.fillAllowed, cmd), {}, Without(running, cmd.job))
  {
    hide FreshOk, RegistryOk, TerminalOk, PendingOk, NoStrandedOk, FramesOk, SettledOk, RetriesOk, FlightsOk,
         CallsOk, HoldersOk, ChainOk, LaneOk, BindingOk, OrderOk, SubmissionOrderOk, NoReturnOk, StopsOk, QuietOk;
    hide OneBindingOk, CommandOk, MaySend, BoundFrameOk, InOrder;
    var b := BindingOf(r, c);
    var s := Sent(c, cmd.op, cmd.taskId, Get(r.controlEpoch, c, None), Call(cmd.taskId.Some?, cmd.job));
    KnownHistory(r, c);
    if |Retire(b)| >= RETIRED_LIMIT {
      FullBindingKeeps(r, c, cmd, running);
    } else {
      var b' := Binding(cmd.taskId, Retire(b));
      NewBinding(b, cmd.taskId.value, r.issued, c);
      SetBindingKeeps(r, c, b', {}, running);
      SendKeeps(SetBinding(r, c, b'), c, r.conns[c].fillAllowed, cmd, {}, running);
    }
  }

  lemma FullBindingKeeps(r: Relay, c: ConnId, cmd: Command, running: set<JobId>)
    requires Mid(r, {}, running) && c in r.conns && IsRunning(r.phase, cmd.job) && |Retire(BindingOf(r, c))| >= RETIRED_LIMIT
    ensures
      var b := BindingOf(r, c).(retiredTaskIds := Retire(BindingOf(r, c)));
      Mid(Finish(Disconnect(SetBinding(r, c, b), r.conns[c].socket), cmd.job), {}, Without(running, cmd.job))
  {
    hide FreshOk, RegistryOk, TerminalOk, PendingOk, NoStrandedOk, FramesOk, SettledOk, RetriesOk, FlightsOk,
         CallsOk, HoldersOk, ChainOk, LaneOk, BindingOk, OrderOk, SubmissionOrderOk, NoReturnOk, StopsOk, QuietOk;
    hide OneBindingOk, BoundFrameOk, InOrder;
    var b := BindingOf(r, c);
    var b' := b.(retiredTaskIds := Retire(b));
    KnownHistory(r, c);
    FullBinding(b);
    GrowBinding(b, b', r.issued, c);
    SetBindingKeeps(r, c, b', {}, running);
    hide Mid;
    DisconnectAndFinishKeeps(SetBinding(r, c, b'), r.conns[c].socket, cmd.job, running);
  }

  lemma FullBinding(b: Binding)
    requires OneBindingOk(b) && |Retire(b)| >= RETIRED_LIMIT
    ensures b.activeTaskId.Some?
  {
    assert b.activeTaskId.None? ==> Retire(b) == {};
  }

  lemma DispatchBoundKeeps(r: Relay, cmd: Command, running: set<JobId>)
    requires Mid(r, {}, running) && IsRunning(r.phase, cmd.job)
    requires cmd.key in r.byConnection ==> CommandOk(r.conns, r.jobs, r.byConnection[cmd.key], cmd)
    ensures Mid(DispatchBound(r, cmd), {}, Without(running, cmd.job))
  {
    hide FreshOk, RegistryOk, TerminalOk, PendingOk, NoStrandedOk, FramesOk, SettledOk, RetriesOk, FlightsOk,
         CallsOk, HoldersOk, ChainOk, LaneOk, BindingOk, OrderOk, SubmissionOrderOk, NoReturnOk, StopsOk, QuietOk;
    hide CommandOk;
    if cmd.key in r.byConnection {
      var c := r.byConnection[cmd.key];
      KnownKey(r, cmd.key);
      if cmd.op == Stop {
        BindAndSendKeeps(r, c, cmd, running);
      } else {
        AddDispatchKeeps(r, c, cmd, {}, running);
      }
    } else if cmd.op == Stop && cmd.taskId.None? {
      QueueStopKeeps(r, cmd.key, {}, running);
      FinishKeeps(QueueStop(r, cmd.key), cmd.job, {}, running);
    } else {
      FinishKeeps(r, cmd.job, {}, running);
    }
  }

  lemma KnownConnection(r: Relay, k: Key, running: set<JobId>)
    requires Mid(r, {}, running)
    ensures k in r.byConnection ==> r.byConnection[k] in r.conns && r.conns[r.byConnection[k]].key == k && IsRegistered(r, r.byConnection[k])
  {
    hide FreshOk, RegistryOk, TerminalOk, PendingOk, NoStrandedOk, FramesOk, SettledOk, RetriesOk, FlightsOk,
         CallsOk, HoldersOk, ChainOk, LaneOk, BindingOk, OrderOk, SubmissionOrderOk, NoReturnOk, StopsOk, QuietOk;
    if k in r.byConnection {
      KnownKey(r, k);
    }
  }

  lemma RunJobKeeps(r: Relay, j: JobId)
    requires Mid(r, {}, {j}) && j in r.jobs && IsRunning(r.phase, Some(j))
    ensures Inv(RunJob(r, j))
  {
    hide Mid;
    var job := r.jobs[j];
    var cmd := Command(job.key, Some(job.taskId), job.op, Some(j));
    KnownConnection(r, job.key, {j});
    if Lookup(r.byConnection, job.key) == job.connection {
      DispatchBoundKeeps(r, cmd, {j});
    } else {
      FinishKeeps(r, Some(j), {}, {j});
    }
    assert {j} - {j} == {};
  }

  lemma StartLane(jobs: map<JobId, Job>, phase: map<JobId, Phase>, tails: map<Key, JobId>, j: JobId)
    requires ChainOk(jobs, tails) && LaneOk(jobs, phase, tails) && QuietOk(phase, {})
    requires j in jobs && jobs[j].previous.Some? && Get(phase, jobs[j].previous.value, Done).Done? && Get(phase, j, Done).Waiting?
    ensures LaneOk(jobs, phase[j := Running], tails) && QuietOk(phase[j := Running], {j})
  {
    var p := jobs[j].previous.value;
    assert Before(jobs, p, j);
    forall a: JobId | Before(jobs, a, j) ensures Get(phase, a, Done).Done? {
      assert a <= p;
      if a < p {
        assert Before(jobs, a, p);
      }
    }
  }

  lemma StartHolders(flights: map<FlightId, Flight>, issued: map<CommandId, Sent>, timers: Timers,
                     jobs: map<JobId, Job>, phase: map<JobId, Phase>, j: JobId)
    requires HoldersOk(flights, issued, timers, jobs, phase) && Get(phase, j, Done).Waiting?
    ensures HoldersOk(flights, issued, timers, jobs, phase[j := Running])
  {
  }

  lemma TailResolvedKeeps(r: Relay, j: JobId)
    requires Inv(r) && MayStart(r, j)
    ensures Inv(RunJob(SetRunning(r, Some(j)), j))
  {
    hide FreshOk, RegistryOk, TerminalOk, PendingOk, NoStrandedOk, FramesOk, SettledOk, RetriesOk, FlightsOk,
         CallsOk, HoldersOk, ChainOk, LaneOk, BindingOk, OrderOk, SubmissionOrderOk, NoReturnOk, StopsOk, QuietOk;
    StartLane(r.jobs, r.phase, r.commandTails, j);
    StartHolders(r.flights, r.issued, r.timers, r.jobs, r.phase, j);
    RunJobKeeps(SetRunning(r, Some(j)), j);
  }

  lemma AddJobFresh(conns: map<ConnId, Conn>, flights: map<FlightId, Flight>, jobs: map<JobId, Job>, issued: map<CommandId, Sent>, next: nat, job: Job)
    requires FreshOk(conns, flights, jobs, issued, next)
    ensures FreshOk(conns, flights, jobs[next := job], issued, next + 1) && (forall j <- jobs :: j < next)
  {
  }

  /** Only earlier calls of the same profile come before the new one. */
  lemma AddJobBefore(jobs: map<JobId, Job>, j: JobId, job: Job, a: JobId, b: JobId)
    requires (forall x <- jobs :: x < j) && Before(jobs[j := job], a, b)
    ensures a in jobs && a != j
    ensures if b == j then jobs[a].key == job.key else Before(jobs, a, b)
  {
    assert b == j || b in jobs;
  }

  lemma AddJobChain(jobs: map<JobId, Job>, tails: map<Key, JobId>, j: JobId, job: Job)
    requires ChainOk(jobs, tails) && (forall x <- jobs :: x < j) && job.previous == Lookup(tails, job.key)
    ensures ChainOk(jobs[j := job], tails[job.key := j])
  {
    var jobs' := jobs[j := job];
    forall x: JobId, b: JobId | Before(jobs', x, b) ensures jobs'[b].previous.Some? ==> x <= jobs'[b].previous.value {
      AddJobBefore(jobs, j, job, x, b);
    }
    forall b | b in jobs' && jobs'[b].previous.Some? ensures Before(jobs', jobs'[b].previous.value, b) {
      if b != j {
        assert Before(jobs, jobs[b].previous.value, b);
      }
    }
  }

  lemma AddJobLane(jobs: map<JobId, Job>, phase: map<JobId, Phase>, tails: map<Key, JobId>, j: JobId, job: Job, p: Phase)
    requires LaneOk(jobs, phase, tails) && QuietOk(phase, {}) && phase.Keys == jobs.Keys
    requires forall x <- jobs :: x < j
    requires p == if job.key !in tails then Running else Waiting
    ensures LaneOk(jobs[j := job], phase[j := p], tails[job.key := j])
    ensures QuietOk(phase[j := p], if p.Running? then {j} else {})
  {
    var jobs' := jobs[j := job];
    forall a: JobId, b: JobId | Before(jobs', a, b) && !Get(phase[j := p], b, Done).Waiting?
      ensures Get(phase[j := p], a, Done).Done?
    {
      AddJobBefore(jobs, j, job, a, b);
    }
  }

  lemma AddJobCalls(conns: map<ConnId, Conn>, jobs: map<JobId, Job>, flights: map<FlightId, Flight>, issued: map<CommandId, Sent>, j: JobId, job: Job)
    requires CallsOk(conns, jobs, flights, issued) && SubmissionOrderOk(jobs, issued) && j !in jobs
    ensures CallsOk(conns, jobs[j := job], flights, issued) && SubmissionOrderOk(jobs[j := job], issued)
  {
  }

  lemma AddJobHolders(flights: map<FlightId, Flight>, issued: map<CommandId, Sent>, timers: Timers,
                      jobs: map<JobId, Job>, phase: map<JobId, Phase>, conns: map<ConnId, Conn>, j: JobId, job: Job, p: Phase)
    requires HoldersOk(flights, issued, timers, jobs, phase) && CallsOk(conns, jobs, flights, issued) && j !in jobs
    requires p.Running? || (p.Waiting? && job.previous.Some?)
    ensures HoldersOk(flights, issued, timers, jobs[j := job], phase[j := p])
    ensures phase.Keys == jobs.Keys
  {
  }

  lemma AddJobKeeps(r: Relay, k: Key, t: TaskId, op: Op)
    requires Inv(r)
    ensures Mid(AddJob(r, k, t, op), {}, if k in r.commandTails then {} else {r.next})
  {
    hide FreshOk, RegistryOk, TerminalOk, PendingOk, NoStrandedOk, FramesOk, SettledOk, RetriesOk, FlightsOk,
         CallsOk, HoldersOk, ChainOk, LaneOk, BindingOk, OrderOk, SubmissionOrderOk, NoReturnOk, StopsOk, QuietOk;
    var previous := Lookup(r.commandTails, k);
    var job := Job(k, Lookup(r.byConnection, k), t, op, previous);
    var p := if previous.None? then Running else Waiting;
    AddJobFresh(r.conns, r.flights, r.jobs, r.issued, r.next, job);
    AddJobCalls(r.conns, r.jobs, r.flights, r.issued, r.next, job);
    AddJobHolders(r.flights, r.issued, r.timers, r.jobs, r.phase, r.conns, r.next, job, p);
    AddJobChain(r.jobs, r.commandTails, r.next, job);
    AddJobLane(r.jobs, r.phase, r.commandTails, r.next, job, p);
  }

  lemma SubmitKeeps(r: Relay, k: Key, t: TaskId, op: Op)
    requires Inv(r)
    ensures Inv(Submit(r, k, t, op))
  {
    hide Mid;
    AddJobKeeps(r, k, t, op);
    if k !in r.commandTails {
      RunJobKeeps(AddJob(r, k, t, op), r.next);
    }
  }

  lemma ForgetTail(jobs: map<JobId, Job>, phase: map<JobId, Phase>, tails: map<Key, JobId>, k: Key)
    requires ChainOk(jobs, tails) && LaneOk(jobs, phase, tails) && k in tails && Get(phase, tails[k], Done).Done?
    ensures ChainOk(jobs, tails - {k}) && LaneOk(jobs, phase, tails - {k})
  {
    forall a: JobId | a in jobs && jobs[a].key == k ensures Get(phase, a, Done).Done? {
      if a < tails[k] {
        assert Before(jobs, a, tails[k]);
      }
    }
  }

  lemma TailForgottenKeeps(r: Relay, k: Key)
    requires Inv(r) && k in r.commandTails && PhaseOf(r, r.commandTails[k]).Done?
    ensures Inv(r.(commandTails := r.commandTails - {k}))
  {
    hide FreshOk, RegistryOk, TerminalOk, PendingOk, NoStrandedOk, FramesOk, SettledOk, RetriesOk, FlightsOk,
         CallsOk, HoldersOk, ChainOk, LaneOk, BindingOk, OrderOk, SubmissionOrderOk, NoReturnOk, StopsOk, QuietOk;
    ForgetTail(r.jobs, r.phase, r.commandTails, k);
  }

  // ---------------------------------------------------------------- frames

  lemma TouchKeeps(r: Relay, seen: map<ConnId, int>, epochs: map<ConnId, Option<nat>>, hole: set<Key>, running: set<JobId>)
    requires Mid(r, hole, running)
    ensures Mid(r.(lastSeenAt := seen, controlEpoch := epochs), hole, running)
  {
    hide FreshOk, RegistryOk, TerminalOk, PendingOk, NoStrandedOk, FramesOk, SettledOk, RetriesOk, FlightsOk,
         CallsOk, HoldersOk, ChainOk, LaneOk, BindingOk, OrderOk, SubmissionOrderOk, NoReturnOk, StopsOk, QuietOk;
  }

  lemma HelloFrameKeeps(r: Relay, s: Socket, identity: Option<Key>, fillAllowed: bool)
    requires Inv(r)
    ensures Inv(HelloFrame(r, s, identity, fillAllowed))
  {
    hide FreshOk, RegistryOk, TerminalOk, PendingOk, NoStrandedOk, FramesOk, SettledOk, RetriesOk, FlightsOk,
         CallsOk, HoldersOk, ChainOk, LaneOk, BindingOk, OrderOk, SubmissionOrderOk, NoReturnOk, StopsOk, QuietOk;
    if s !in r.closed {
      if s in r.bySocket || s in r.admitting {
        DisconnectKeeps(r, s, {}, {});
      } else if identity.Some? {
        AddHelloKeeps(r, HelloFlight(s, identity.value, fillAllowed));
      }
    }
  }

  /** A newer pairing for the same profile replaces the registered connection. */
  lemma ReplaceKeeps(r: Relay, s: Socket, k: Key)
    requires Inv(r) && s !in r.bySocket && s !in r.closed
    ensures
      var q := if k in r.byConnection && r.byConnection[k] in r.conns && r.conns[r.byConnection[k]].socket != s
               then Disconnect(r, r.conns[r.byConnection[k]].socket) else r;
      Inv(q) && k !in q.byConnection && s !in q.bySocket && s !in q.closed && q.flights == r.flights && q.pendingStops == r.pendingStops
  {
    hide FreshOk, RegistryOk, TerminalOk, PendingOk, NoStrandedOk, FramesOk, SettledOk, RetriesOk, FlightsOk,
         CallsOk, HoldersOk, ChainOk, LaneOk, BindingOk, OrderOk, SubmissionOrderOk, NoReturnOk, StopsOk, QuietOk;
    if k in r.byConnection {
      KnownKey(r, k);
      DisconnectKeeps(r, r.conns[r.byConnection[k]].socket, {}, {});
    }
  }

  /** The new connection's queued Stop, if there is one, is delivered at once. */
  lemma WelcomeKeeps(r: Relay, s: Socket, k: Key, fillAllowed: bool, now: int)
    requires Inv(r) && k !in r.byConnection && s !in r.bySocket && s !in r.closed
    requires forall f <- r.flights :: r.flights[f].HelloFlight? ==> r.flights[f].socket != s
    ensures
      var q := Register(r, s, k, fillAllowed, now);
      && q.pendingStops == r.pendingStops
      && Inv(if k in q.pendingStops then DeliverPendingStop(SetTerminal(q, r.next, k, Some(Stopped)), r.next, k) else q)
  {
    hide FreshOk, RegistryOk, TerminalOk, PendingOk, NoStrandedOk, FramesOk, SettledOk, RetriesOk, FlightsOk,
         CallsOk, HoldersOk, ChainOk, LaneOk, BindingOk, OrderOk, SubmissionOrderOk, NoReturnOk, StopsOk, QuietOk;
    var q := Register(r, s, k, fillAllowed, now);
    RegisterKeeps(r, s, k, fillAllowed, now, {}, {});
    assert {} + {k} == {k} && {k} - {k} == {};
    if k in q.pendingStops {
      SetTerminalKeeps(q, r.next, k, Some(Stopped), {k}, {});
      DeliverKeeps(SetTerminal(q, r.next, k, Some(Stopped)), k, {k}, {});
    } else {
      HoleNotNeeded(q.byConnection, q.pendingStops, {k}, q.pending, q.retries, k);
    }
  }

  lemma HelloResumeKeeps(r0: Relay, f: FlightId, admitted: bool, now: int)
    requires Inv(r0) && f in r0.flights && r0.flights[f].HelloFlight?
    ensures Inv(HelloResume(r0, f, admitted, now))
  {
    hide Mid, Disconnect, Register, SetTerminal, DeliverPendingStop;
    var HelloFlight(s, k, fillAllowed) := r0.flights[f];
    var r := r0.(flights := r0.flights - {f}, admitting := r0.admitting - {s});
    ResumeKeeps(r0, f);
    assert r == Resumed(r0, f);
    hide Resumed;
    if !admitted {
      DisconnectKeeps(r, s, {}, {});
    } else if s !in r.closed {
      AdmittedKeeps(r, s, k, fillAllowed, now);
    }
  }

  /** An admitted socket replaces the profile's connection and is welcomed. */
  lemma AdmittedKeeps(r: Relay, s: Socket, k: Key, fillAllowed: bool, now: int)
    requires Inv(r) && s !in r.bySocket && s !in r.closed
    requires forall f <- r.flights :: r.flights[f].HelloFlight? ==> r.flights[f].socket != s
    ensures
      var q := if k in r.byConnection && r.byConnection[k] in r.conns && r.conns[r.byConnection[k]].socket != s
               then Disconnect(r, r.conns[r.byConnection[k]].socket) else r;
      var n := Register(q, s, k, fillAllowed, now);
      Inv(if k in n.pendingStops then DeliverPendingStop(SetTerminal(n, q.next, k, Some(Stopped)), q.next, k) else n)
  {
    hide Mid, Disconnect, Register, SetTerminal, DeliverPendingStop;
    ReplaceKeeps(r, s, k);
    var q := if k in r.byConnection && r.byConnection[k] in r.conns && r.conns[r.byConnection[k]].socket != s
             then Disconnect(r, r.conns[r.byConnection[k]].socket) else r;
    WelcomeKeeps(q, s, k, fillAllowed, now);
  }

  lemma ReceiverKnown(r: Relay, s: Socket)
    requires Inv(r) && Receiver(r, s).Some?
    ensures
      var c := Receiver(r, s).value;
      c in r.conns && r.conns[c].key in r.byConnection && r.byConnection[r.conns[c].key] == c
  {
    hide FreshOk, RegistryOk, TerminalOk, PendingOk, NoStrandedOk, FramesOk, SettledOk, RetriesOk, FlightsOk,
         CallsOk, HoldersOk, ChainOk, LaneOk, BindingOk, OrderOk, SubmissionOrderOk, NoReturnOk, StopsOk, QuietOk;
    KnownReceiver(r, s);
  }

  lemma PingFrameKeeps(r: Relay, s: Socket, now: int)
    requires Inv(r)
    ensures Inv(PingFrame(r, s, now))
  {
    hide Mid;
    if Receiver(r, s).Some? {
      var c := Receiver(r, s).value;
      TouchKeeps(r, r.lastSeenAt[c := now], r.controlEpoch, {}, {});
      AddFlightKeeps(Touch(r, c, now), PingFlight(c), {}, {});
    }
  }

  lemma ResultFrameKeeps(r: Relay, s: Socket, id: CommandId, ok: bool, now: int)
    requires Inv(r)
    ensures Inv(ResultFrame(r, s, id, ok, now))
  {
    hide Mid, Receiver, Settle, SetTerminal, AddFlight;
    if Receiver(r, s).Some? {
      ReceiverKnown(r, s);
      var c := Receiver(r, s).value;
      var t, k := Touch(r, c, now), r.conns[c].key;
      TouchKeeps(r, r.lastSeenAt[c := now], r.controlEpoch, {}, {});
      if id in PendingOf(t, c) && PendingOf(t, c)[id].op == Stop && Current(t, c) {
        StopAnsweredKeeps(t, k, id, ok);
      } else {
        AddFlightKeeps(t, ResultFlight(c, id, ok), {}, {});
      }
    }
  }

  lemma StopAnsweredKeeps(t: Relay, k: Key, id: CommandId, ok: bool)
    requires Inv(t) && k in t.byConnection && id in PendingOf(t, t.byConnection[k])
    ensures
      var c := t.byConnection[k];
      Inv(AddFlight(if ok then SetTerminal(Settle(t, c, k, id, AnsweredOk), c, k, Some(Stopped)) else Settle(t, c, k, id, AnsweredFailed),
                    SafetyFlight(c)))
  {
    hide Mid, Settle;
    KnownConnection(t, k, {});
    var c := t.byConnection[k];
    SettleAnswered(t, k, id, ok);
    var u := Settle(t, c, k, id, if ok then AnsweredOk else AnsweredFailed);
    if ok {
      SetTerminalKeeps(u, c, k, Some(Stopped), {}, {});
      AddFlightKeeps(SetTerminal(u, c, k, Some(Stopped)), SafetyFlight(c), {}, {});
    } else {
      AddFlightKeeps(u, SafetyFlight(c), {}, {});
    }
  }

  lemma SettleFrame(r: Relay, c: ConnId, k: Key, id: CommandId, answer: Answer)
    requires id in PendingOf(r, c) && k in r.byConnection && c in r.conns
    ensures
      var q := Settle(r, c, k, id, answer);
      Lookup(q.byConnection, k) == Some(r.byConnection[k]) && c in q.conns && q.conns[c] == r.conns[c]
  {
  }

  lemma SettleAnswered(r: Relay, k: Key, id: CommandId, ok: bool)
    requires Inv(r) && k in r.byConnection && id in PendingOf(r, r.byConnection[k])
    ensures
      var c := r.byConnection[k];
      var q := Settle(r, c, k, id, if ok then AnsweredOk else AnsweredFailed);
      Inv(q) && Lookup(q.byConnection, k) == Some(c) && c in q.conns && q.conns[c] == r.conns[c]
  {
    hide FreshOk, RegistryOk, TerminalOk, PendingOk, NoStrandedOk, FramesOk, SettledOk, RetriesOk, FlightsOk,
         CallsOk, HoldersOk, ChainOk, LaneOk, BindingOk, OrderOk, SubmissionOrderOk, NoReturnOk, StopsOk, QuietOk;
    KnownKey(r, k);
    SettleKeeps(r, k, id, if ok then AnsweredOk else AnsweredFailed, {}, {});
    hide Mid;
    SettleFrame(r, r.byConnection[k], k, id, if ok then AnsweredOk else AnsweredFailed);
  }

  lemma SettleExpired(r: Relay, k: Key, id: CommandId)
    requires Inv(r) && k in r.byConnection && id in PendingOf(r, r.byConnection[k])
    ensures
      var c := r.byConnection[k];
      var q := Settle(r, c, k, id, Expired);
      && Mid(q, if PendingOf(r, c)[id].resolver.Delivery? then {k} else {}, {})
      && Lookup(q.byConnection, k) == Some(c) && c in q.conns && q.conns[c] == r.conns[c]
  {
    hide FreshOk, RegistryOk, TerminalOk, PendingOk, NoStrandedOk, FramesOk, SettledOk, RetriesOk, FlightsOk,
         CallsOk, HoldersOk, ChainOk, LaneOk, BindingOk, OrderOk, SubmissionOrderOk, NoReturnOk, StopsOk, QuietOk;
    KnownKey(r, k);
    SettleKeeps(r, k, id, Expired, {}, {});
    assert {} + {k} == {k};
    hide Mid;
    SettleFrame(r, r.byConnection[k], k, id, Expired);
  }

  lemma EventFrameKeeps(r: Relay, s: Socket, kind: EventKind, epoch: Option<nat>, now: int)
    requires Inv(r)
    ensures Inv(EventFrame(r, s, kind, epoch, now))
  {
    hide Mid;
    if Receiver(r, s).Some? {
      ReceiverKnown(r, s);
      var c := Receiver(r, s).value;
      var k := r.conns[c].key;
      var epochs := if kind.EvStopped? && epoch.Some? then r.controlEpoch[c := epoch] else r.controlEpoch;
      var u := r.(lastSeenAt := r.lastSeenAt[c := now], controlEpoch := epochs);
      TouchKeeps(r, r.lastSeenAt[c := now], epochs, {}, {});
      if TerminalOf(kind).Some? {
        SetTerminalKeeps(u, c, k, TerminalOf(kind), {}, {});
        RejectPendingKeeps(SetTerminal(u, c, k, TerminalOf(kind)), c, {}, {});
      } else {
        RejectPendingKeeps(u, c, {}, {});
      }
    }
  }

  // ---------------------------------------------------------------- continuations and timers

  lemma CheckResumeKeeps(r0: Relay, f: FlightId, allowed: bool)
    requires Inv(r0) && f in r0.flights && !r0.flights[f].HelloFlight? && r0.flights[f].conn in r0.conns
    ensures Inv(CheckResume(r0, f, allowed))
  {
    hide Mid;
    var c := r0.flights[f].conn;
    var Conn(k, s, _) := r0.conns[c];
    var r := r0.(flights := r0.flights - {f});
    ResumeKeeps(r0, f);
    if r0.flights[f].DispatchFlight? {
      DispatchResumeKeeps(r0, f, allowed);
    } else {
      assert r == Resumed(r0, f);
      DisconnectKeeps(r, s, {}, {});
      if r0.flights[f].ResultFlight? && allowed {
        ResultResumeKeeps(r, c, r0.flights[f].id, r0.flights[f].ok);
      }
    }
  }

  lemma ResultResumeKeeps(r: Relay, c: ConnId, id: CommandId, ok: bool)
    requires Inv(r) && c in r.conns
    ensures Current(r, c) && id in PendingOf(r, c) ==>
      var k := r.conns[c].key;
      Inv(if ok then Settle(SetTerminal(r, c, k, None), c, k, id, AnsweredOk) else Settle(r, c, k, id, AnsweredFailed))
  {
    hide Mid;
    if Current(r, c) && id in PendingOf(r, c) {
      var k := r.conns[c].key;
      SetTerminalKeeps(r, c, k, None, {}, {});
      SettleKeeps(if ok then SetTerminal(r, c, k, None) else r, k, id, if ok then AnsweredOk else AnsweredFailed, {}, {});
    }
  }

  lemma DispatchResumeKeeps(r0: Relay, f: FlightId, allowed: bool)
    requires Inv(r0) && f in r0.flights && r0.flights[f].DispatchFlight? && r0.flights[f].conn in r0.conns
    ensures Inv(CheckResume(r0, f, allowed))
  {
    hide Mid, CommandOk, WithPhase;
    var c, cmd := r0.flights[f].conn, r0.flights[f].command;
    ResumeKeeps(r0, f);
    ResumedCallRuns(r0, f);
    DispatchResumedKeeps(Resumed(r0, f), c, cmd, allowed);
  }

  lemma ResumedCallRuns(r0: Relay, f: FlightId)
    requires f in r0.flights && r0.flights[f].DispatchFlight?
    ensures IsRunning(Resumed(r0, f).phase, r0.flights[f].command.job)
    ensures Resumed(r0, f) == SetRunning(r0.(flights := r0.flights - {f}), r0.flights[f].command.job)
  {
  }

  lemma DispatchResumedKeeps(r: Relay, c: ConnId, cmd: Command, allowed: bool)
    requires Mid(r, {}, if cmd.job.Some? then {cmd.job.value} else {})
    requires CommandOk(r.conns, r.jobs, c, cmd) && IsRunning(r.phase, cmd.job) && c in r.conns
    ensures
      Inv(if !allowed then Finish(Disconnect(r, r.conns[c].socket), cmd.job)
          else if !Current(r, c) then Finish(r, cmd.job)
          else BindAndSend(r, c, r.conns[c], cmd))
  {
    hide Mid, CommandOk, IsRunning;
    var running := if cmd.job.Some? then {cmd.job.value} else {};
    assert Without(running, cmd.job) == {};
    if !allowed {
      DisconnectAndFinishKeeps(r, r.conns[c].socket, cmd.job, running);
    } else if !Current(r, c) {
      FinishKeeps(r, cmd.job, {}, running);
    } else {
      BindAndSendKeeps(r, c, cmd, running);
    }
  }

  lemma RetryKeeps(r: Relay, c: ConnId, hole: set<Key>)
    requires Mid(r, hole, {}) && c in r.conns && hole <= {r.conns[c].key}
    requires hole != {} ==> IsRegistered(r, c)
    requires IsRegistered(r, c) && r.conns[c].key in r.pendingStops ==> hole != {}
    ensures Inv(Retry(r, c))
  {
    hide Mid;
    if IsRegistered(r, c) {
      assert hole - {r.conns[c].key} == {};
      assert r.conns[c].key in r.pendingStops ==> r.conns[c].key in hole;
      DeliverKeeps(r, r.conns[c].key, hole, {});
    }
  }

  lemma ArmedRegistered(r: Relay, id: CommandId)
    requires Inv(r) && Armed(r, id)
    ensures IsRegistered(r, r.timers[id])
  {
    hide FreshOk, RegistryOk, TerminalOk, PendingOk, NoStrandedOk, FramesOk, SettledOk, RetriesOk, FlightsOk,
         CallsOk, HoldersOk, ChainOk, LaneOk, BindingOk, OrderOk, SubmissionOrderOk, NoReturnOk, StopsOk, QuietOk;
    NoStranded(r.conns, r.byConnection, r.timers, id);
  }

  lemma NoStranded(conns: map<ConnId, Conn>, byConnection: map<Key, ConnId>, timers: Timers, id: CommandId)
    requires NoStrandedOk(conns, byConnection, timers) && id in timers
    ensures Registered(conns, byConnection, timers[id])
  {
  }

  lemma CommandTimeoutKeeps(r: Relay, id: CommandId)
    requires Inv(r) && Armed(r, id)
    ensures Inv(CommandTimeout(r, id))
  {
    hide Mid, Settle;
    ArmedRegistered(r, id);
    var c := r.timers[id];
    var k := r.conns[c].key;
    SettleExpired(r, k, id);
    match PendingOf(r, c)[id].resolver {
      case Delivery => RetryKeeps(Settle(r, c, k, id, Expired), c, {k});
      case Call(_, _) => DisconnectKeeps(Settle(r, c, k, id, Expired), r.conns[c].socket, {}, {});
    }
  }

  lemma RetryFiredTables(byConnection: map<Key, ConnId>, pendingStops: set<Key>, pending: PendingTable, retries: multiset<ConnId>,
                         conns: map<ConnId, Conn>, bySocket: map<Socket, ConnId>, closed: set<Socket>, c: ConnId)
    requires StopsOk(byConnection, pendingStops, {}, pending, retries) && RetriesOk(conns, retries) && c in retries
    requires RegistryOk(conns, byConnection, bySocket, closed)
    ensures c in conns && RetriesOk(conns, retries - multiset{c})
    ensures StopsOk(byConnection, pendingStops, if Registered(conns, byConnection, c) then {conns[c].key} else {}, pending, retries - multiset{c})
    ensures Registered(conns, byConnection, c) ==> conns[c].key in pendingStops
  {
  }

  lemma RetryFiredKeeps(r: Relay, c: ConnId)
    requires Inv(r) && c in r.retries
    ensures Inv(Retry(r.(retries := r.retries - multiset{c}), c))
  {
    hide FreshOk, RegistryOk, TerminalOk, PendingOk, NoStrandedOk, FramesOk, SettledOk, RetriesOk, FlightsOk,
         CallsOk, HoldersOk, ChainOk, LaneOk, BindingOk, OrderOk, SubmissionOrderOk, NoReturnOk, StopsOk, QuietOk;
    RetryFiredTables(r.byConnection, r.pendingStops, r.pending, r.retries, r.conns, r.bySocket, r.closed, c);
    RetryKeeps(r.(retries := r.retries - multiset{c}), c, if IsRegistered(r, c) then {r.conns[c].key} else {});
  }

  lemma CallUnboundKeeps(r: Relay, k: Key, op: Op)
    requires Inv(r)
    ensures Inv(DispatchBound(r, Command(k, None, op, None)))
  {
    hide Mid;
    KnownConnection(r, k, {});
    DispatchBoundKeeps(r, Command(k, None, op, None), {});
  }

  /** Every step keeps the invariant. */
  lemma StepKeeps(r: Relay, e: Event)
    requires Inv(r)
    ensures Inv(Step(r, e))
  {
    hide Mid, Step;
    if e.Hello? || e.Admitted? || e.Ping? || e.Result? || e.ExtensionEvent? || e.Checked? { FrameStepKeeps(r, e); } else { OtherStepKeeps(r, e); }
  }

  /** A frame arrives, or the handler of one goes on. */
  lemma FrameStepKeeps(r: Relay, e: Event)
    requires Inv(r) && (e.Hello? || e.Admitted? || e.Ping? || e.Result? || e.ExtensionEvent? || e.Checked?)
    ensures Inv(Step(r, e))
  {
    hide Mid, HelloFrame, HelloResume, PingFrame, ResultFrame, EventFrame, CheckResume;
    match e {
      case Hello(s, identity, fillAllowed) => HelloFrameKeeps(r, s, identity, fillAllowed);
      case Admitted(f, verdict, now) =>
        if f in r.flights && r.flights[f].HelloFlight? { HelloResumeKeeps(r, f, verdict, now); }
      case Ping(s, now) => PingFrameKeeps(r, s, now);
      case Result(s, id, ok, now) => ResultFrameKeeps(r, s, id, ok, now);
      case ExtensionEvent(s, kind, epoch, now) => EventFrameKeeps(r, s, kind, epoch, now);
      case Checked(f, verdict) =>
        if f in r.flights && !r.flights[f].HelloFlight? && r.flights[f].conn in r.conns { CheckResumeKeeps(r, f, verdict); }
    }
  }

  /** A call, a timer, or a socket's end. */
  lemma OtherStepKeeps(r: Relay, e: Event)
    requires Inv(r) && !e.Hello? && !e.Admitted? && !e.Ping? && !e.Result? && !e.ExtensionEvent? && !e.Checked?
    ensures Inv(Step(r, e))
  {
    hide Mid, Disconnect, DispatchBound, Submit, RunJob, CommandTimeout, Retry, AddFlight, SetRunning, Armed, MayStart, PhaseOf;
    match e {
      case SocketClosed(s) => DisconnectKeeps(r, s, {}, {});
      case CallUnbound(k, op) => CallUnboundKeeps(r, k, op);
      case CallBound(k, t, op) => SubmitKeeps(r, k, t, op);
      case TailResolved(j) => if MayStart(r, j) { TailResolvedKeeps(r, j); }
      case TailForgotten(j) =>
        if j in r.jobs && PhaseOf(r, j).Done? && Lookup(r.commandTails, r.jobs[j].key) == Some(j) {
          TailForgottenKeeps(r, r.jobs[j].key);
        }
      case TimerFired(id) => if Armed(r, id) { CommandTimeoutKeeps(r, id); }
      case RetryFired(c) => if c in r.retries { RetryFiredKeeps(r, c); }
      case Renew(c) => if IsRegistered(r, c) { AddFlightKeeps(r, RenewFlight(c), {}, {}); }
      case Sweep(c, now) => if IsRegistered(r, c) { DisconnectKeeps(r, r.conns[c].socket, {}, {}); }
    }
  }

  lemma EmptyOk()
    ensures Inv(EMPTY)
  {
    hide CoreOk, TasksOk;
    EmptyCore();
    EmptyTasks();
  }

  lemma EmptyCore()
    ensures CoreOk(EMPTY)
  {
  }

  lemma EmptyTasks()
    ensures TasksOk(EMPTY)
  {
    hide CallsOk, HoldersOk, ChainOk, LaneOk, BindingOk, OrderOk, SubmissionOrderOk, NoReturnOk;
    NoCalls(EMPTY.conns, map[], map[]);
    NoJobs(map[], map[], map[], map[], map[], map[]);
    NoFrames(map[], map[], map[]);
  }

  lemma NoCalls(conns: map<ConnId, Conn>, flights: map<FlightId, Flight>, issued: map<CommandId, Sent>)
    requires flights == map[] && issued == map[]
    ensures CallsOk(conns, map[], flights, issued)
  {
  }

  lemma NoJobs(flights: map<FlightId, Flight>, issued: map<CommandId, Sent>, timers: map<CommandId, ConnId>, jobs: map<JobId, Job>,
               phase: map<JobId, Phase>, tails: map<Key, JobId>)
    requires flights == map[] && issued == map[] && timers == map[] && jobs == map[] && phase == map[] && tails == map[]
    ensures HoldersOk(flights, issued, timers, jobs, phase) && ChainOk(jobs, tails) && LaneOk(jobs, phase, tails)
  {
  }

  lemma NoFrames(jobs: map<JobId, Job>, issued: map<CommandId, Sent>, binding: map<ConnId, Binding>)
    requires issued == map[] && binding == map[]
    ensures BindingOk(binding, issued) && OrderOk(binding, issued) && NoReturnOk(issued) && SubmissionOrderOk(jobs, issued)
  {
  }

  /** The invariant holds after every run. */
  lemma {:induction false} ExecKeeps(r: Relay, es: seq<Event>)
    requires Inv(r)
    ensures Inv(Exec(r, es))
    decreases |es|
  {
    hide Mid, Step;
    if es != [] {
      StepKeeps(r, es[0]);
      ExecKeeps(Step(r, es[0]), es[1..]);
    }
  }
}
