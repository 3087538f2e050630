/** What the desktop's fence promises over every run of both parties. */
module FenceTheorems {
  import opened Options
  import opened Fence

  // ---------------------------------------------------------------- jobs

  lemma NewGeneration(jobs: seq<Job>, generation: nat, lane: nat, active: bool, released: bool, lane': nat, active': bool, released': bool)
    requires JobsOk(jobs, generation, lane, active, released) && lane <= lane'
    ensures JobsOk(jobs, generation + 1, lane', active', released')
  {
  }

  lemma MoreActive(jobs: seq<Job>, generation: nat, lane: nat, active: bool, released: bool)
    requires JobsOk(jobs, generation, lane, active, released)
    ensures JobsOk(jobs, generation, lane, true, false)
  {
  }

  lemma OneMoreJob(jobs: seq<Job>, generation: nat, lane: nat, active: bool, released: bool, c: Command)
    requires JobsOk(jobs, generation, lane, active, released) && !(active && released)
    ensures JobsOk(jobs + [Job(c, generation, lane, Queued, 0)], generation, lane, active, released)
  {
  }

  lemma JobChanges(jobs: seq<Job>, generation: nat, lane: nat, active: bool, released: bool, i: nat, j: Job)
    requires JobsOk(jobs, generation, lane, active, released) && i < |jobs|
    requires j.generation == jobs[i].generation && j.lane == jobs[i].lane && !j.state.Queued?
    requires j.state.Executing? ==> (jobs[i].state.Executing? || MayBegin(jobs, i)) && (j.generation == generation ==> active)
    requires jobs[i].state.Queued? ==> MayBegin(jobs, i)
    ensures JobsOk(jobs[i := j], generation, lane, active, released)
  {
  }

  // ---------------------------------------------------------------- the link

  lemma CommandStays(c: Command, announced: seq<nat>, processed: nat, epoch: nat)
    requires CommandOk(c, announced, processed)
    ensures CommandOk(c, announced + [epoch], processed)
  {
  }

  lemma {:induction false} EpochsAppend(up: seq<Option<nat>>, e: Option<nat>)
    ensures Epochs(up + [e]) == Epochs(up) + EpochOf(e)
  {
    hide EpochOf;
    if up == [] {
      assert [e][1..] == [];
    } else {
      assert (up + [e])[1..] == up[1..] + [e];
      EpochsAppend(up[1..], e);
    }
  }

  lemma EpochsHead(up: seq<Option<nat>>)
    ensures up != [] ==> Epochs(up) == EpochOf(up[0]) + Epochs(up[1..])
    ensures Epochs([]) == []
  {
  }

  lemma OneMoreEpoch(s: seq<nat>, again: Option<nat>, bound: nat, epoch: nat)
    requires Rising(s, again, bound)
    ensures epoch > bound ==> Rising(s + [epoch], again, epoch)
    ensures again.None? && epoch <= bound && s != [] && s[|s| - 1] == epoch ==> Rising(s + [epoch], Some(|s|), bound)
  {
  }

  /** Sending a `stopped` event, as far as the relay's side goes. */
  lemma SentOk(l: Link, epoch: nat)
    requires WireOk(l)
    ensures WireOk(Announced(Some(l), epoch).value)
  {
    hide Epochs;
    EpochsAppend(l.up, Some(epoch));
    var n := l.announced + [epoch];
    if l.stage.Registered? {
      assert l.announced[l.processed..] + [epoch] == n[l.processed..];
      forall i | 0 <= i < |l.down| && (l.ready || i > 0) ensures CommandOk(l.down[i].command, n, l.processed) {
        CommandStays(l.down[i].command, l.announced, l.processed, epoch);
      }
    }
  }

  lemma NewEpochOk(l: Link, commandEpoch: Option<nat>, generation: nat, dormant: bool)
    requires LinkOk(l, commandEpoch, generation, dormant)
    ensures Announced(Some(l), generation + 1).value.id == l.id
    ensures LinkOk(Announced(Some(l), generation + 1).value, Some(generation + 1), generation + 1, true)
  {
    SentOk(l, generation + 1);
    OneMoreEpoch(l.announced, l.again, generation, generation + 1);
    hide WireOk, Rising;
    if l.stage.Opening? { OpeningIsSilent(l); }
  }

  lemma OpeningIsSilent(l: Link)
    requires WireOk(l) && l.stage.Opening?
    ensures l.announced == [] && !l.ready
  {
  }

  /** An event without an epoch changes nothing of the fence. */
  lemma TabClosedOk(l: Link, commandEpoch: Option<nat>, generation: nat, dormant: bool)
    requires LinkOk(l, commandEpoch, generation, dormant)
    ensures LinkOk(TabClosedSent(Some(l)).value, commandEpoch, generation, dormant) && TabClosedSent(Some(l)).value.id == l.id
  {
    hide Rising, WireOk;
    TabClosedWire(l);
  }

  lemma TabClosedWire(l: Link)
    requires WireOk(l)
    ensures WireOk(TabClosedSent(Some(l)).value)
  {
    hide Epochs, CommandOk;
    EpochsAppend(l.up, None);
    assert l.announced + [] == l.announced;
    if l.stage.Registered? { assert l.announced[l.processed..] + [] == l.announced[l.processed..]; }
  }

  /** Nothing but a stop makes the desktop dormant; it wakes up only when the link is ready or nothing was announced. */
  lemma LaterGeneration(l: Link, commandEpoch: Option<nat>, generation: nat, dormant: bool, later: nat, dormant': bool)
    requires LinkOk(l, commandEpoch, generation, dormant) && generation <= later && (dormant' || l.ready || l.announced == [])
    ensures LinkOk(l, commandEpoch, later, dormant')
  {
    hide WireOk;
  }

  lemma FrameTaken(l: Link, commandEpoch: Option<nat>, generation: nat, dormant: bool)
    requires LinkOk(l, commandEpoch, generation, dormant) && l.down != []
    ensures l.down[0].Cmd? <==> l.ready
    ensures l.ready ==> LinkOk(l.(down := l.down[1..]), commandEpoch, generation, dormant)
    ensures l.down[0].Ready? ==> l.stage.Registered?
    ensures l.down[0].Cmd? ==> CommandOk(l.down[0].command, l.announced, l.processed)
  {
  }

  /** The handshake: control that was not taken has announced nothing here; otherwise the fence in force is announced, perhaps again. */
  lemma BecomesReady(l: Link, commandEpoch: Option<nat>, generation: nat, dormant: bool)
    requires LinkOk(l, commandEpoch, generation, dormant) && l.stage.Registered? && !l.ready && l.down != []
    ensures !dormant || commandEpoch.None? ==> LinkOk(l.(down := l.down[1..], ready := true), None, generation, dormant)
    ensures commandEpoch.Some? && commandEpoch.value <= generation && dormant ==>
      LinkOk(Announced(Some(Repeating(l.(down := l.down[1..], ready := true))), commandEpoch.value).value, commandEpoch, generation, dormant)
  {
    hide WireOk, Rising, Announced;
    var r := l.(down := l.down[1..], ready := true);
    ReadyWire(l);
    ReadyAnnounces(l.(down := l.down[1..]), commandEpoch, generation, dormant);
    if commandEpoch.Some? { SentOk(Repeating(r), commandEpoch.value); }
  }

  /** The same of the announcements alone, on any open socket, and nothing announced before is later than the fence in force. */
  lemma ReadyAnnounces(l: Link, commandEpoch: Option<nat>, generation: nat, dormant: bool)
    requires AnnouncedOk(l, commandEpoch, generation, dormant) && !l.ready && !l.stage.Opening?
    ensures !dormant || commandEpoch.None? ==> l.announced == [] && AnnouncedOk(l.(ready := true), None, generation, dormant)
    ensures commandEpoch.Some? && commandEpoch.value <= generation && dormant ==>
      AnnouncedOk(Announced(Some(Repeating(l.(ready := true))), commandEpoch.value).value, commandEpoch, generation, dormant)
    ensures commandEpoch.Some? ==> forall i | 0 <= i < |l.announced| :: l.announced[i] <= commandEpoch.value
  {
    AnnouncedBefore(l, commandEpoch, generation, dormant);
    hide Rising;
    if commandEpoch.Some? && commandEpoch.value <= generation {
      OneMoreEpoch(l.announced, l.again, generation, commandEpoch.value);
      if l.announced == [] { Single(commandEpoch.value, generation); }
    }
  }

  lemma Single(epoch: nat, bound: nat)
    requires epoch <= bound
    ensures Rising([], None, bound) && Rising([epoch], None, bound) && [] + [epoch] == [epoch]
  {
  }

  lemma ReadyWire(l: Link)
    requires WireOk(l) && l.stage.Registered? && !l.ready && l.down != []
    ensures var r := l.(down := l.down[1..], ready := true); WireOk(r) && WireOk(Repeating(r))
  {
    hide CommandOk, Epochs;
  }

  lemma NewLinkOk(id: nat, commandEpoch: Option<nat>, generation: nat, dormant: bool)
    ensures LinkOk(Link(id, Opening, false, [], None, [], 0, None, []), commandEpoch, generation, dormant)
  {
  }

  lemma RelayReadsOk(l: Link, commandEpoch: Option<nat>, generation: nat, dormant: bool)
    requires LinkOk(l, commandEpoch, generation, dormant)
    ensures LinkOk(RelayReads(l), commandEpoch, generation, dormant) && RelayReads(l).id == l.id
  {
    hide WireOk, Rising;
    ReadWire(l);
  }

  lemma ReadWire(l: Link)
    requires WireOk(l)
    ensures WireOk(RelayReads(l))
  {
    hide Epochs;
    EpochsHead(l.up);
    if l.stage.Registered? && l.up != [] && l.up[0].Some? {
      hide CommandOk;
      assert l.announced[l.processed..][0] == l.up[0].value;
      assert l.announced[l.processed..][1..] == l.announced[l.processed + 1..];
      forall i | 0 <= i < |l.down| && (l.ready || i > 0) ensures CommandOk(l.down[i].command, l.announced, l.processed + 1) {
        ProcessedMore(l.down[i].command, l.announced, l.processed);
      }
    }
  }

  lemma ProcessedMore(c: Command, announced: seq<nat>, processed: nat)
    requires CommandOk(c, announced, processed) && processed < |announced|
    ensures CommandOk(c, announced, processed + 1)
  {
  }

  /** The relay puts a command on a link. */
  lemma RelaySendsOk(l: Link, commandEpoch: Option<nat>, generation: nat, dormant: bool, op: Op, durable: bool)
    requires LinkOk(l, commandEpoch, generation, dormant)
    ensures LinkOk(RelaySends(l, op, durable), commandEpoch, generation, dormant) && RelaySends(l, op, durable).id == l.id
  {
    hide Rising, Epochs;
  }

  lemma GreetingOk(l: Link, commandEpoch: Option<nat>, generation: nat, dormant: bool)
    requires LinkOk(l, commandEpoch, generation, dormant)
    ensures LinkOk(Opens(l), commandEpoch, generation, dormant) && Opens(l).id == l.id
    ensures LinkOk(RelayAdmits(l), commandEpoch, generation, dormant) && RelayAdmits(l).id == l.id
    ensures LinkOk(RelayRefuses(l), commandEpoch, generation, dormant) && RelayRefuses(l).id == l.id
  {
    EpochsHead(l.up);
    hide Rising, Epochs, CommandOk;
    if l.stage.Greeting? { assert l.announced == l.announced[0..]; }
  }

  // ---------------------------------------------------------------- control

  lemma ShutdownKeeps(d: Desktop)
    requires Inv(d)
    ensures Inv(Shutdown(d))
  {
    hide LinkOk, JobsOk;
    NewGeneration(d.jobs, d.generation, d.lane, d.active, d.released, d.lane + 1, false, d.released);
    if d.link.Some? { NewEpochOk(d.link.value, d.commandEpoch, d.generation, Dormant(d)); }
  }

  lemma StopAllKeeps(d: Desktop, blockAutomatic: bool)
    requires Inv(d)
    ensures Inv(StopAll(d, blockAutomatic))
    ensures forall preserve: bool :: Inv(Dispose(d, preserve))
  {
    hide LinkOk, JobsOk;
    NewGeneration(d.jobs, d.generation, d.lane, d.active, d.released, d.lane + 1, false, d.released);
  }

  lemma ReleaseKeeps(d: Desktop)
    requires Inv(d)
    ensures Inv(ReleaseControl(d))
  {
    hide LinkOk, JobsOk;
    ShutdownKeeps(d);
    NewGeneration(d.jobs, d.generation, d.lane, d.active, d.released, d.lane + 1, d.active, true);
    if d.link.Some? { NewEpochOk(d.link.value, d.commandEpoch, d.generation, Dormant(d)); }
  }

  lemma StartNextKeeps(d: Desktop, hostOk: bool)
    requires Inv(d) && !d.host && d.partition && (d.link.Some? ==> d.link.value.ready)
    ensures Inv(StartNext(d, hostOk))
  {
    hide LinkOk, JobsOk;
    NewGeneration(d.jobs, d.generation, d.lane, d.active, d.released, d.lane, true, false);
    NewGeneration(d.jobs, d.generation, d.lane, d.active, d.released, d.lane, d.active, d.released);
    if d.link.Some? {
      LaterGeneration(d.link.value, d.commandEpoch, d.generation, Dormant(d), d.generation + 1, false);
      LaterGeneration(d.link.value, d.commandEpoch, d.generation, Dormant(d), d.generation + 1, Dormant(d));
    }
  }

  lemma TakeBackKeeps(d: Desktop)
    requires Inv(d) && (d.link.Some? ==> d.link.value.ready)
    ensures Inv(TakeBack(d))
  {
    hide LinkOk, JobsOk;
    if d.released && d.host { MoreActive(d.jobs, d.generation, d.lane, d.active, d.released); }
    if d.link.Some? { LaterGeneration(d.link.value, d.commandEpoch, d.generation, Dormant(d), d.generation, false); }
  }

  lemma EnqueueKeeps(d: Desktop, c: Command)
    requires Inv(d) && !(d.active && d.released)
    ensures Inv(Enqueue(d, c))
  {
    hide LinkOk, JobsOk;
    OneMoreJob(d.jobs, d.generation, d.lane, d.active, d.released, c);
  }

  lemma ReceiveKeeps(d: Desktop, c: Command, urlOk: bool, hostOk: bool)
    requires Inv(d) && (d.link.Some? ==> d.link.value.ready)
    ensures Inv(Receive(d, c, urlOk, hostOk))
  {
    if Passes(d, c) {
      if c.op == Stop {
        hide Inv;
        ReleaseKeeps(d);
      } else {
        var t := TakeBack(d);
        TakeBackKeeps(d);
        assert !(t.active && t.released);
        hide ControlOk, JobsOk, Enqueue;
        if !t.active && t.partition && (Starter(c.op) || !t.automaticBlocked) {
          ActiveHost(t);
          StartNextKeeps(t, hostOk);
          if !(Starter(c.op) && !urlOk) && hostOk { EnqueueKeeps(StartNext(t, true), c); }
        } else {
          EnqueueKeeps(t, c);
        }
      }
    }
  }

  lemma ActiveHost(d: Desktop)
    requires Inv(d)
    ensures d.active == d.host
  {
  }

  lemma ReadsKeeps(d: Desktop, urlOk: bool, hostOk: bool)
    requires Inv(d) && d.link.Some? && d.link.value.down != []
    ensures Inv(DesktopReads(d, urlOk, hostOk))
  {
    hide LinkOk, JobsOk, Receive, StopAll;
    var l := d.link.value;
    FrameTaken(l, d.commandEpoch, d.generation, Dormant(d));
    match l.down[0] {
      case Ready => BecomesReady(l, d.commandEpoch, d.generation, Dormant(d));
      case Refusal => RefusedKeeps(d);
      case Cmd(c) => ReceiveKeeps(d.(link := Some(l.(down := l.down[1..]))), c, urlOk, hostOk);
    }
  }

  lemma RefusedKeeps(d: Desktop)
    requires Inv(d) && d.link.Some?
    ensures forall l: Link :: Inv(StopAll(d.(link := Some(l)), true))
  {
    hide LinkOk, JobsOk;
    StopAllKeeps(d, true);
    forall l: Link ensures StopAll(d.(link := Some(l)), true) == StopAll(d, true) {
    }
  }

  lemma PairingKeeps(d: Desktop, expected: Option<nat>, automatic: bool, approved: bool, allow: bool, connected: bool, hostOk: bool)
    requires Inv(d)
    ensures Inv(PairStarts(d, expected, automatic, approved))
    ensures d.pairing.Asking? ==> Inv(PairAnswered(d, allow))
    ensures d.pairing.Connecting? ==> Inv(PairSettles(d, connected, hostOk))
  {
    hide LinkOk, JobsOk;
    StopAllKeeps(d, false);
    StopAllKeeps(d.(pairing := Idle), false);
    if d.pairing.Connecting? && d.pairing.generation == d.generation {
      MoreActive(d.jobs, d.generation, d.lane, d.active, d.released);
      if d.link.Some? {
        NothingAnnounced(d.link.value, d.generation, Dormant(d));
        LaterGeneration(d.link.value, d.commandEpoch, d.generation, Dormant(d), d.generation, false);
      }
    }
  }

  lemma NothingAnnounced(l: Link, generation: nat, dormant: bool)
    requires LinkOk(l, None, generation, dormant)
    ensures l.announced == []
  {
  }

  lemma JobKeeps(d: Desktop, i: nat, threw: bool)
    requires Inv(d) && i < |d.jobs|
    ensures MayBegin(d.jobs, i) ==> Inv(JobBegins(d, i))
    ensures d.jobs[i].state.Executing? ==> Inv(JobActs(d, i)) && Inv(JobEnds(d, i, threw))
  {
    hide LinkOk, JobsOk;
    if MayBegin(d.jobs, i) {
      JobChanges(d.jobs, d.generation, d.lane, d.active, d.released, i, JobBegins(d, i).jobs[i]);
    }
    if d.jobs[i].state.Executing? {
      JobChanges(d.jobs, d.generation, d.lane, d.active, d.released, i, JobActs(d, i).jobs[i]);
      JobChanges(d.jobs, d.generation, d.lane, d.active, d.released, i, JobEnds(d, i, threw).jobs[i]);
    }
  }

  lemma MovedOk(l: Link, e: Event, commandEpoch: Option<nat>, generation: nat, dormant: bool)
    requires LinkOk(l, commandEpoch, generation, dormant)
    ensures LinkOk(Moved(l, e), commandEpoch, generation, dormant) && Moved(l, e).id == l.id
  {
    hide LinkOk, RelayReads, RelaySends, RelayAdmits, RelayRefuses, Opens;
    match e {
      case RelayHandlesEvent => RelayReadsOk(l, commandEpoch, generation, dormant);
      case RelayDispatches(op) => RelaySendsOk(l, commandEpoch, generation, dormant, op, false);
      case RelayDeliversStop => RelaySendsOk(l, commandEpoch, generation, dormant, Stop, true);
      case _ => GreetingOk(l, commandEpoch, generation, dormant);
    }
  }

  lemma LinkKeeps(d: Desktop, e: Event)
    requires Inv(d)
    ensures Inv(LinkStep(d, e))
    ensures Inv(d.(link := TabClosedSent(d.link)))
  {
    hide Inv, LinkOk, Moved, LinkUp;
    NoLinkKeeps(d);
    if d.link.Some? {
      LinkIsOk(d);
      MovedOk(d.link.value, e, d.commandEpoch, d.generation, Dormant(d));
      MovedKeeps(d, Moved(d.link.value, e));
      TabClosedOk(d.link.value, d.commandEpoch, d.generation, Dormant(d));
      MovedKeeps(d, TabClosedSent(d.link).value);
    }
  }

  lemma LinkIsOk(d: Desktop)
    requires Inv(d) && d.link.Some?
    ensures LinkOk(d.link.value, d.commandEpoch, d.generation, Dormant(d))
  {
    hide LinkOk, JobsOk;
  }

  lemma MovedKeeps(d: Desktop, n: Link)
    requires Inv(d) && d.link.Some? && n.id == d.link.value.id && LinkOk(n, d.commandEpoch, d.generation, Dormant(d))
    ensures Inv(d.(link := Some(n)))
  {
    hide LinkOk, JobsOk;
  }

  lemma NoLinkKeeps(d: Desktop)
    requires Inv(d)
    ensures Inv(d.(link := None)) && (d.client ==> Inv(LinkUp(d)))
  {
    hide LinkOk, JobsOk;
    NewLinkOk(d.links, d.commandEpoch, d.generation, Dormant(d));
  }

  lemma StepKeeps(d: Desktop, e: Event)
    requires Inv(d)
    ensures Inv(Step(d, e))
  {
    hide LinkOk, JobsOk, ControlOk, Inv, Shutdown, StopAll, Dispose, ReleaseControl, Receive, DesktopReads, PairStarts, PairAnswered,
         PairSettles, JobBegins, JobActs, JobEnds, LinkStep, TabClosedSent,
         StartNext, MayBegin;
    match e {
      case FrameArrives(urlOk, hostOk) => if d.link.Some? && d.link.value.down != [] { ReadsKeeps(d, urlOk, hostOk); }
      case Unpaired => StopAllKeeps(d, true);
      case ToolbarStop => ReleaseKeeps(d);
      case LastTabClosed => ShutdownKeeps(d);
      case HostClosed => StopAllKeeps(d, false);
      case DebuggerDetached => StopAllKeeps(d, true);
      case ShowPressed(hostOk) => if !d.host && d.partition && d.link.Some? && d.link.value.ready { StartNextKeeps(d, hostOk); }
      case Disposed(_) => StopAllKeeps(d, false);
      case PairRequested(expected, automatic, approved) => PairingKeeps(d, expected, automatic, approved, false, false, false);
      case DialogAnswered(allow) => PairingKeeps(d, None, false, false, allow, false, false);
      case PairingSettled(connected, hostOk) => PairingKeeps(d, None, false, false, false, connected, hostOk);
      case Began(i) => if MayBegin(d.jobs, i) { BeginIndex(d.jobs, i); JobKeeps(d, i, false); }
      case Acted(i) => if i < |d.jobs| { JobKeeps(d, i, false); }
      case Ended(i, threw) => if i < |d.jobs| { JobKeeps(d, i, threw); }
      case _ => LinkKeeps(d, e);
    }
  }

  lemma BeginIndex(jobs: seq<Job>, i: nat)
    requires MayBegin(jobs, i)
    ensures i < |jobs|
  {
  }

  lemma {:induction false} ExecKeeps(d: Desktop, es: seq<Event>)
    requires Inv(d)
    ensures Inv(Exec(d, es))
    decreases |es|
  {
    hide Inv, Step;
    if es != [] {
      StepKeeps(d, es[0]);
      ExecKeeps(Step(d, es[0]), es[1..]);
    }
  }

  // ---------------------------------------------------------------- the fence across both parties

  lemma ReachableOk(es: seq<Event>)
    ensures Inv(Exec(START, es))
  {
    hide Step;
    ExecKeeps(START, es);
  }

  /** The next frame on a ready link is this command. */
  ghost predicate Arriving(d: Desktop, c: Command) {
    d.link.Some? && d.link.value.ready && d.link.value.down != [] && d.link.value.down[0] == Cmd(c)
  }

  /** Among the first `seen` announcements is one of the epoch that was announced last. */
  ghost predicate HeardTheLatest(announced: seq<nat>, seen: nat) {
    announced != [] && exists i :: 0 <= i < seen && i < |announced| && announced[i] == announced[|announced| - 1]
  }

  /**
   * A dispatched command passes the epoch test if and only if nothing was announced on this link,
   * or the relay had processed an announcement of the link's latest epoch when it sent the command.
   * That is the last announcement, or the one before it where `ready` made the desktop repeat it.
   * A durable Stop, whose frame carries no epoch, passes if and only if nothing was announced.
   */
  lemma OnlyFreshCommandsPass(es: seq<Event>, c: Command)
    requires Arriving(Exec(START, es), c)
    ensures
      var d := Exec(START, es);
      var l := d.link.value;
      var n := |l.announced|;
      && (Passes(d, c) <==> l.announced == [] || (!c.durable && HeardTheLatest(l.announced, c.seen)))
      && (HeardTheLatest(l.announced, c.seen) <==> n > 0 && c.seen >= if l.again == Some(n - 1) then n - 1 else n)
  {
    hide Exec;
    ReachableOk(es);
    var d := Exec(START, es);
    var l := d.link.value;
    assert CommandOk(l.down[0].command, l.announced, l.processed);
    LatestHeard(l.announced, l.again, d.generation, c.seen);
  }

  /** In a rising sequence only the last element, or the one it repeats, equals the last. */
  lemma LatestHeard(s: seq<nat>, again: Option<nat>, bound: nat, seen: nat)
    requires Rising(s, again, bound) && seen <= |s|
    ensures HeardTheLatest(s, seen) <==> s != [] && EpochAfter(s, seen) == EpochAfter(s, |s|)
    ensures HeardTheLatest(s, seen) <==> s != [] && seen >= if again == Some(|s| - 1) then |s| - 1 else |s|
  {
    var n := |s|;
    if n > 0 && seen > 0 && s[seen - 1] == s[n - 1] {
      assert 0 <= seen - 1 < seen;
      assert HeardTheLatest(s, seen);
    }
  }

  /** A fresh socket, opened and admitted. */
  function Reconnected(d: Desktop): Desktop {
    Step(Step(Step(Step(d, Disconnected), Connected), SocketOpened), RelayAdmitted)
  }

  lemma ReconnectedLink(d: Desktop)
    requires d.client
    ensures Reconnected(d) == d.(link := Some(Link(d.links, Registered, false, [], None, [], 0, None, [Ready])), links := d.links + 1)
  {
  }

  /** Paired by hand, connected, and running. */
  function Started(): Desktop {
    Step(Step(Reconnected(Step(START, PairRequested(None, false, true))), FrameArrives(true, true)), PairingSettled(true, true))
  }

  lemma StartedState()
    ensures var d := Started(); d.client && d.host && d.active && !d.released && d.generation == 1
  {
    hide Reconnected, Step;
    var p := Step(START, PairRequested(None, false, true));
    PairedState();
    ReconnectedLink(p);
    FencelessReady(Reconnected(p));
    PairedStarts(Step(Reconnected(p), FrameArrives(true, true)));
  }

  lemma PairedState()
    ensures
      var d := Step(START, PairRequested(None, false, true));
      d.client && !d.active && d.commandEpoch.None? && d.generation == 1 && d.pairing == Connecting(1, false)
  {
  }

  /** Without an epoch in force, `ready` announces nothing. */
  lemma FencelessReady(d: Desktop)
    requires d.link.Some? && d.link.value.down == [Ready] && d.commandEpoch.None?
    ensures Step(d, FrameArrives(true, true)) == d.(link := Some(d.link.value.(down := [], ready := true)))
  {
    assert [Ready][1..] == [];
  }

  lemma PairedStarts(d: Desktop)
    requires d.pairing == Connecting(d.generation, false)
    ensures var n := Step(d, PairingSettled(true, true)); n.host && n.active && !n.released && n.generation == d.generation && n.client == d.client
  {
  }

  /** Reconnected, stopped before `ready` is read, and a command sent on that Stop. */
  function StoppedEarly(): Desktop {
    Step(Step(Step(Reconnected(Started()), ToolbarStop), RelayHandlesEvent), RelayDispatches(Navigate))
  }

  lemma StoppedEarlyState()
    ensures
      var d := StoppedEarly();
      d.released && d.commandEpoch == Some(2) && d.link.Some?
      && d.link.value == Link(d.link.value.id, Registered, false, [2], None, [], 1, Some(2), [Ready, Cmd(Command(Navigate, Some(2), false, 1))])
  {
    hide Reconnected, Started;
    StartedState();
    ReconnectedLink(Started());
  }

  /**
   * Having processed every announcement would be too much to ask: a Stop between admission and
   * reading `ready` is announced again at `ready`, and a command sent after the first passes.
   */
  lemma OneStopAnnouncedTwice()
    ensures
      var d := Step(StoppedEarly(), FrameArrives(true, true));
      var c := Command(Navigate, Some(2), false, 1);
      Arriving(d, c) && Passes(d, c) && d.link.value.announced == [2, 2] && d.link.value.again == Some(1)
  {
    hide StoppedEarly, Step;
    StoppedEarlyState();
    ReadyRepeats(StoppedEarly(), 2, Command(Navigate, Some(2), false, 1));
  }

  lemma ReadyRepeats(d: Desktop, epoch: nat, c: Command)
    requires d.released && d.commandEpoch == Some(epoch) && d.link.Some? && !d.link.value.stage.Opening?
    requires d.link.value.announced == [epoch] && d.link.value.down == [Ready, Cmd(c)] && c.controlEpoch == Some(epoch)
    ensures
      var n := Step(d, FrameArrives(true, true));
      Arriving(n, c) && Passes(n, c) && n.link.value.announced == [epoch, epoch] && n.link.value.again == Some(1)
  {
    hide Receive, StopAll;
    assert [Ready, Cmd(c)][1..] == [Cmd(c)];
    assert [epoch] + [epoch] == [epoch, epoch];
  }

  /** Only a reconnect forgets what was announced; until then the list grows. */
  ghost predicate SameLink(d: Desktop, d': Desktop) {
    d.link.Some? && d'.link.Some? && d.link.value.id == d'.link.value.id
  }

  /** What one step does to jobs of older generations, to hosts and to announcements. */
  ghost predicate Onward(d: Desktop, d': Desktop) {
    && d.generation <= d'.generation
    && |d.jobs| <= |d'.jobs|
    && (forall i | 0 <= i < |d.jobs| :: if d.jobs[i].generation < d.generation then Frozen(d.jobs[i], d'.jobs[i]) else d'.jobs[i].generation == d.jobs[i].generation)
    && (d.host ==> d'.hosts == d.hosts)
    && d.links <= d'.links
    && (d'.link.Some? ==> (d.link.Some? && d'.link.value.id == d.link.value.id) || d.links <= d'.link.value.id)
    && (SameLink(d, d') ==> d.link.value.announced <= d'.link.value.announced)
  }

  /** `later` is what became of `j`: nothing more was done for it. */
  ghost predicate Frozen(j: Job, later: Job) {
    && later.command == j.command && later.generation == j.generation && later.effects == j.effects
    && (later.state.Succeeded? ==> j.state.Succeeded?)
    && (later.state.Failed? ==> j.state.Failed?)
  }

  lemma ControlOnward(d: Desktop, block: bool)
    ensures Onward(d, Shutdown(d)) && Onward(d, StopAll(d, block)) && Onward(d, Dispose(d, block)) && Onward(d, ReleaseControl(d))
    ensures !d.host ==> Onward(d, StartHost(d)) && Onward(d, StartNext(d, true)) && Onward(d, StartNext(d, false))
  {
  }

  lemma ReceiveOnward(d: Desktop, c: Command, urlOk: bool, hostOk: bool)
    requires d.active == d.host
    ensures Onward(d, Receive(d, c, urlOk, hostOk))
  {
    hide ReleaseControl, Accept, Onward;
    StandStill(d);
    ControlOnward(d, false);
    AcceptOnward(d, c, urlOk, hostOk);
  }

  lemma AcceptOnward(d: Desktop, c: Command, urlOk: bool, hostOk: bool)
    requires d.active == d.host
    ensures Onward(d, Accept(d, c, urlOk, hostOk))
  {
    hide StartNext;
    ControlOnward(TakeBack(d), false);
  }

  lemma ReadsOnward(d: Desktop, urlOk: bool, hostOk: bool)
    requires d.active == d.host && d.link.Some? && d.link.value.down != []
    ensures Onward(d, DesktopReads(d, urlOk, hostOk))
  {
    hide Receive, StopAll, Onward;
    var l := d.link.value;
    var r := d.(link := Some(l.(down := l.down[1..])));
    match l.down[0] {
      case Ready => ReadyOnward(d, r);
      case Refusal => ControlOnward(r, true); OnwardFrom(d, r, StopAll(r, true));
      case Cmd(c) => ReceiveOnward(r, c, urlOk, hostOk); OnwardFrom(d, r, Receive(r, c, urlOk, hostOk));
    }
  }

  lemma OnwardFrom(d: Desktop, r: Desktop, d': Desktop)
    requires d.link.Some? && d.link.value.down != [] && r == d.(link := Some(d.link.value.(down := d.link.value.down[1..]))) && Onward(r, d')
    ensures Onward(d, d')
  {
    hide Frozen;
  }

  lemma ReadyOnward(d: Desktop, r: Desktop)
    requires d.link.Some? && d.link.value.down != [] && r == d.(link := Some(d.link.value.(down := d.link.value.down[1..])))
    ensures Onward(d, OnReady(r))
  {

  }

  lemma PairStartsOnward(d: Desktop, expected: Option<nat>, automatic: bool, approved: bool)
    ensures Onward(d, PairStarts(d, expected, automatic, approved))
  {
    hide LinkOk, StopAll;
    ControlOnward(d, false);
    StandStill(d);
  }

  lemma PairAnsweredOnward(d: Desktop, allow: bool)
    requires d.pairing.Asking?
    ensures Onward(d, PairAnswered(d, allow))
  {
    StandStill(d);
  }

  lemma PairSettlesOnward(d: Desktop, connected: bool, hostOk: bool)
    requires ControlOk(d) && d.pairing.Connecting?
    ensures Onward(d, PairSettles(d, connected, hostOk))
  {
    hide LinkOk, StopAll;
    ControlOnward(d.(pairing := Idle), false);
    StandStill(d);
  }

  lemma JobOnward(d: Desktop, i: nat, threw: bool)
    requires i < |d.jobs|
    ensures d.jobs[i].state.Queued? ==> Onward(d, JobBegins(d, i))
    ensures d.jobs[i].state.Executing? ==> Onward(d, JobActs(d, i)) && Onward(d, JobEnds(d, i, threw))
  {
  }

  lemma LinkOnward(d: Desktop, e: Event)
    ensures Onward(d, LinkStep(d, e)) && Onward(d, d.(link := TabClosedSent(d.link)))
  {
    hide Moved, LinkUp, Onward, SameAnnouncements;
    StandStill(d);
    NoLinkOnward(d);
    if d.link.Some? {
      AnnouncesNothing(d.link.value, e);
      MovedOnward(d, Moved(d.link.value, e));
      MovedOnward(d, TabClosedSent(d.link).value);
    }
  }

  lemma MovedOnward(d: Desktop, n: Link)
    requires d.link.Some? && SameAnnouncements(d.link.value, n)
    ensures Onward(d, d.(link := Some(n)))
  {
  }

  lemma NoLinkOnward(d: Desktop)
    ensures Onward(d, d.(link := None)) && (d.link.None? ==> Onward(d, LinkUp(d)))
  {
  }

  ghost predicate SameAnnouncements(l: Link, n: Link) {
    n.id == l.id && n.announced == l.announced
  }

  lemma AnnouncesNothing(l: Link, e: Event)
    ensures SameAnnouncements(l, Moved(l, e)) && SameAnnouncements(l, TabClosedSent(Some(l)).value)
  {
  }

  lemma StepOnward(d: Desktop, e: Event)
    requires Inv(d)
    ensures Onward(d, Step(d, e))
  {
    hide LinkOk, JobsOk, Onward, Shutdown, StopAll, Dispose, ReleaseControl, Receive, DesktopReads, PairStarts, PairAnswered,
         PairSettles, JobBegins, JobActs, JobEnds, LinkStep, TabClosedSent,
         StartNext;
    LinkOnward(d, e);
    StandStill(d);
    match e {
      case FrameArrives(urlOk, hostOk) => if d.link.Some? && d.link.value.down != [] { ReadsOnward(d, urlOk, hostOk); }
      case Unpaired => ControlOnward(d, true);
      case ToolbarStop => ControlOnward(d, true);
      case LastTabClosed => ControlOnward(d, true);
      case HostClosed => ControlOnward(d, false);
      case DebuggerDetached => ControlOnward(d, true);
      case ShowPressed(_) => ControlOnward(d, true);
      case Disposed(preserve) => ControlOnward(d, preserve);
      case PairRequested(expected, automatic, approved) => PairStartsOnward(d, expected, automatic, approved);
      case DialogAnswered(allow) => if d.pairing.Asking? { PairAnsweredOnward(d, allow); }
      case PairingSettled(connected, hostOk) => if d.pairing.Connecting? { PairSettlesOnward(d, connected, hostOk); }
      case Began(i) => if i < |d.jobs| { JobOnward(d, i, false); }
      case Acted(i) => if i < |d.jobs| { JobOnward(d, i, false); }
      case Ended(i, threw) => if i < |d.jobs| { JobOnward(d, i, threw); }
      case _ =>
    }
  }

  lemma StandStill(d: Desktop)
    ensures Onward(d, d)
  {
  }

  lemma {:induction false} LinkHistory(d: Desktop, es: seq<Event>)
    requires Inv(d)
    ensures d.links <= Exec(d, es).links
    ensures Exec(d, es).link.Some? ==> (d.link.Some? && Exec(d, es).link.value.id == d.link.value.id) || d.links <= Exec(d, es).link.value.id
    ensures SameLink(d, Exec(d, es)) ==> d.link.value.announced <= Exec(d, es).link.value.announced
    decreases |es|
  {
    hide Step, JobsOk, LinkOk;
    if es != [] {
      var n := Step(d, es[0]);
      StepKeeps(d, es[0]);
      StepOnward(d, es[0]);
      LinkHistory(n, es[1..]);
    }
  }

  /**
   * When control is taken while a link is open, every dispatched command that still passes on that
   * link left the relay after it had processed the announcement of that very Stop, whatever else
   * was announced there before or since.
   */
  lemma PassedAfterStopWasProcessed(es: seq<Event>, e: Event, later: seq<Event>, c: Command)
    requires
      var d := Exec(START, es);
      var d' := Exec(Step(d, e), later);
      && TakesControl(d, e) && d.link.Some? && !d.link.value.stage.Opening?
      && SameLink(Step(d, e), d') && Arriving(d', c) && Passes(d', c) && !c.durable
    ensures
      var d := Exec(START, es);
      d.link.value.announced <= Exec(Step(d, e), later).link.value.announced && c.seen > |d.link.value.announced|
  {
    hide Exec, Step, TakesControl, Passes;
    ReachableOk(es);
    var d := Exec(START, es);
    StopFencesEverything(d, e);
    StepKeeps(d, e);
    LinkHistory(Step(d, e), later);
    ExecAppend(START, es, [e]);
    ExecOne(d, e);
    ExecAppend(START, es + [e], later);
    OnlyFreshCommandsPass(es + [e] + later, c);
    ReachableOk(es + [e] + later);
    var l' := Exec(Step(d, e), later).link.value;
    assert HeardTheLatest(l'.announced, c.seen);
    assert l'.announced[|d.link.value.announced|] == Step(d, e).generation;
    RisingSince(l'.announced, l'.again, Exec(Step(d, e), later).generation, |d.link.value.announced|, c.seen);
  }

  /** Hearing the latest epoch means having heard everything up to an epoch that was new when announced. */
  lemma RisingSince(s: seq<nat>, again: Option<nat>, bound: nat, k: nat, seen: nat)
    requires Rising(s, again, bound) && k < |s| && (forall i | 0 <= i < k :: s[i] < s[k]) && HeardTheLatest(s, seen)
    ensures seen > k
  {
  }

  lemma ExecOne(d: Desktop, e: Event)
    ensures Exec(d, [e]) == Step(d, e)
  {
    hide Step;
    assert [e][1..] == [];
  }

  /** A queued Stop is refused for as long as a link on which something was announced lasts. */
  lemma DurableStopStaysRefused(es: seq<Event>, later: seq<Event>, c: Command)
    requires
      var d := Exec(START, es);
      var d' := Exec(d, later);
      SameLink(d, d') && d.link.value.announced != [] && Arriving(d', c) && c.durable
    ensures !Passes(Exec(Exec(START, es), later), c)
  {
    hide Exec;
    ReachableOk(es);
    LinkHistory(Exec(START, es), later);
    ExecAppend(START, es, later);
    OnlyFreshCommandsPass(es + later, c);
  }

  lemma {:induction false} ExecAppend(d: Desktop, es: seq<Event>, later: seq<Event>)
    ensures Exec(d, es + later) == Exec(Exec(d, es), later)
    decreases |es|
  {
    hide Step;
    if es == [] {
      assert es + later == later;
    } else {
      assert (es + later)[1..] == es[1..] + later;
      ExecAppend(Step(d, es[0]), es[1..], later);
    }
  }

  /** On reading `ready` the fence in force was announced, after everything announced on this link before. */
  ghost predicate FencedAfresh(d: Desktop, d': Desktop) {
    && SameLink(d, d') && d'.link.value.ready && d.commandEpoch.Some? && d'.commandEpoch == d.commandEpoch
    && d'.link.value.announced == d.link.value.announced + [d.commandEpoch.value]
    && d'.link.value.up == d.link.value.up + [d.commandEpoch]
    && (forall i | 0 <= i < |d.link.value.announced| :: d.link.value.announced[i] <= d.commandEpoch.value)
  }

  /** A dormant desktop announces its Stop on every reconnect, before it reads any command. */
  lemma DormantAnnouncesAgain(es: seq<Event>, urlOk: bool, hostOk: bool)
    requires
      var d := Exec(START, es);
      d.link.Some? && d.link.value.down != [] && d.link.value.down[0].Ready? && d.commandEpoch.Some? && Dormant(d)
    ensures var d := Exec(START, es); FencedAfresh(d, Step(d, FrameArrives(urlOk, hostOk)))
  {
    hide Exec, Step;
    ReachableOk(es);
    DormantReads(Exec(START, es), urlOk, hostOk);
  }

  lemma DormantReads(d: Desktop, urlOk: bool, hostOk: bool)
    requires ControlOk(d) && d.link.Some? && d.link.value.down != [] && d.link.value.down[0].Ready? && d.commandEpoch.Some? && Dormant(d)
    ensures FencedAfresh(d, Step(d, FrameArrives(urlOk, hostOk)))
  {
    var l := d.link.value;
    FrameTaken(l, d.commandEpoch, d.generation, Dormant(d));
    AnnouncedBefore(l, d.commandEpoch, d.generation, Dormant(d));
    hide LinkOk, AnnouncedOk, Receive, StopAll;
  }

  lemma AnnouncedBefore(l: Link, commandEpoch: Option<nat>, generation: nat, dormant: bool)
    requires AnnouncedOk(l, commandEpoch, generation, dormant)
    ensures forall i | 0 <= i < |l.announced| :: commandEpoch.Some? && l.announced[i] <= commandEpoch.value
  {
  }

  // ---------------------------------------------------------------- generations

  /** The events that take control away from Brian, and the states they act in. */
  predicate TakesControl(d: Desktop, e: Event) {
    match e
    case Unpaired => d.client
    case ToolbarStop => d.host
    case LastTabClosed => d.host
    case HostClosed => d.host
    case DebuggerDetached => d.host && d.executor.Some?
    case Disposed(_) => true
    case FrameArrives(_, _) =>
      && d.link.Some? && d.link.value.down != []
      && var frame := d.link.value.down[0];
         frame.Refusal? || (frame.Cmd? && frame.command.op == Stop && Passes(d, frame.command))
    case _ => false
  }

  /** `later` has one more announcement than `l`, of an epoch larger than all before. */
  ghost predicate AnnouncedNew(l: Link, later: Link, epoch: nat) {
    && later.id == l.id && later.announced == l.announced + [epoch] && later.up == l.up + [Some(epoch)]
    && forall i | 0 <= i < |l.announced| :: l.announced[i] < epoch
  }

  /**
   * Control was taken: every accepted command is of an older generation, no executor is left, and a
   * control channel that is kept is fenced, on an open link by an announcement larger than all before.
   */
  ghost predicate Fenced(d: Desktop, d': Desktop) {
    && d'.jobs == d.jobs && (forall i | 0 <= i < |d'.jobs| :: d'.jobs[i].generation < d'.generation)
    && d'.executor.None? && Dormant(d')
    && (d'.client ==> d'.commandEpoch == Some(d'.generation))
    && (d'.link.Some? ==> d.link.Some? && d'.link.value.stage == d.link.value.stage)
    && (d'.link.Some? && !d.link.value.stage.Opening? ==> AnnouncedNew(d.link.value, d'.link.value, d'.generation))
  }

  /** Each way of taking control fences. */
  lemma TakingControlFences(d: Desktop, block: bool)
    requires Inv(d)
    ensures Fenced(d, Shutdown(d)) && Fenced(d, ReleaseControl(d)) && Fenced(d, StopAll(d, block)) && Fenced(d, Dispose(d, block))
  {
    hide JobsOk, WireOk;
    OlderJobs(d.jobs, d.generation, d.lane, d.active, d.released);
  }

  /**
   * Taking control away moves past the generation of every accepted command, and an open control
   * channel that is kept is fenced by an announcement larger than every one before.
   */
  lemma StopFencesEverything(d: Desktop, e: Event)
    requires Inv(d) && TakesControl(d, e)
    ensures Fenced(d, Step(d, e))
  {
    hide Shutdown, ReleaseControl, StopAll, Dispose, Inv, LinkStep, PairStep, JobStep, DesktopReads, Fenced, Passes;
    match e {
      case FrameArrives(urlOk, hostOk) => StopFrameFences(d, urlOk, hostOk);
      case Disposed(preserve) => TakingControlFences(d, preserve);
      case HostClosed => TakingControlFences(d, false);
      case _ => TakingControlFences(d, true);
    }
  }

  lemma StopFrameFences(d: Desktop, urlOk: bool, hostOk: bool)
    requires Inv(d) && TakesControl(d, FrameArrives(urlOk, hostOk))
    ensures Fenced(d, DesktopReads(d, urlOk, hostOk))
  {
    hide ReleaseControl, StopAll, LinkOk, JobsOk, Fenced;
    var l := d.link.value;
    var r := d.(link := Some(l.(down := l.down[1..])));
    FrameTaken(l, d.commandEpoch, d.generation, Dormant(d));
    if l.down[0].Refusal? {
      RefusalFences(d, r);
    } else {
      TakingControlFences(r, false);
      FencedFrom(d, r, ReleaseControl(r));
    }
  }

  lemma RefusalFences(d: Desktop, r: Desktop)
    requires Inv(d) && d.link.Some? && d.link.value.down != [] && r == d.(link := Some(d.link.value.(down := d.link.value.down[1..])))
    ensures Fenced(d, StopAll(r, true))
  {
    hide JobsOk, LinkOk;
    OlderJobs(d.jobs, d.generation, d.lane, d.active, d.released);
  }

  lemma FencedFrom(d: Desktop, r: Desktop, d': Desktop)
    requires d.link.Some? && d.link.value.down != [] && r == d.(link := Some(d.link.value.(down := d.link.value.down[1..]))) && Fenced(r, d')
    ensures Fenced(d, d')
  {
  }

  lemma OlderJobs(jobs: seq<Job>, generation: nat, lane: nat, active: bool, released: bool)
    requires JobsOk(jobs, generation, lane, active, released)
    ensures forall i | 0 <= i < |jobs| :: jobs[i].generation <= generation
  {
  }

  /**
   * A command accepted before a later Stop, release or restart never acts again and never
   * publishes a result, neither ok nor failure, in any continuation of the run.
   */
  lemma {:induction false} StaleCommandIsSilent(d: Desktop, es: seq<Event>, i: nat)
    requires Inv(d) && i < |d.jobs| && d.jobs[i].generation < d.generation
    ensures i < |Exec(d, es).jobs| && Frozen(d.jobs[i], Exec(d, es).jobs[i])
    decreases |es|
  {
    hide Step, Inv;
    if es != [] {
      StepOnward(d, es[0]);
      StepKeeps(d, es[0]);
      StaleCommandIsSilent(Step(d, es[0]), es[1..], i);
    }
  }

  /** At most one command can act at a time, and it finds the live host and its own executor. */
  lemma OneCommandActs(es: seq<Event>, i: nat, h: nat)
    requires
      var d := Exec(START, es);
      i < |d.jobs| && d.jobs[i].state.Executing? && Checks(d, d.jobs[i])
    ensures
      var d := Exec(START, es);
      && d.host && d.executor == Some(d.jobs[i].generation)
      && (h < |d.jobs| && d.jobs[h].state.Executing? && Checks(d, d.jobs[h]) ==> h == i)
  {
    hide Exec;
    ReachableOk(es);
  }

  /** While a host lives no other is started: every path that starts one has destroyed the last. */
  lemma NoHostReplaced(es: seq<Event>, e: Event)
    requires Exec(START, es).host
    ensures Step(Exec(START, es), e).hosts == Exec(START, es).hosts
  {
    hide Exec, Step;
    ReachableOk(es);
    StepOnward(Exec(START, es), e);
  }

  /** The operations that bring a page of their own. */
  predicate StartsHost(op: Op) {
    op in {Navigate, OpenTab}
  }

  /** The ways in which stopped control may come back. */
  predicate Reopens(d: Desktop, e: Event) {
    match e
    case ShowPressed(hostOk) => hostOk
    case PairingSettled(connected, hostOk) => connected && hostOk
    case FrameArrives(urlOk, hostOk) =>
      && urlOk && hostOk && d.link.Some? && d.link.value.down != [] && d.link.value.down[0].Cmd?
      && StartsHost(d.link.value.down[0].command.op) && Passes(d, d.link.value.down[0].command)
    case _ => false
  }

  lemma ReadsReopen(d: Desktop, urlOk: bool, hostOk: bool)
    requires d.active == d.host && !d.active && d.automaticBlocked && d.link.Some? && d.link.value.down != []
    ensures
      var d' := DesktopReads(d, urlOk, hostOk);
      d'.active ==> Reopens(d, FrameArrives(urlOk, hostOk)) && !d'.automaticBlocked
  {
    hide Receive, Reopens, OnReady, StopAll;
    var l := d.link.value;
    var r := d.(link := Some(l.(down := l.down[1..])));
    match l.down[0] {
      case Ready => ReadyIsNoStart(r);
      case Refusal => StoppedIsNoStart(r);
      case Cmd(c) => ReceiveReopens(d, r, c, urlOk, hostOk);
    }
  }

  lemma ReadyIsNoStart(d: Desktop)
    requires d.link.Some?
    ensures OnReady(d).active == d.active
  {
    hide Announced;
  }

  lemma StoppedIsNoStart(d: Desktop)
    ensures !Shutdown(d).active && forall block: bool :: !StopAll(d, block).active
  {
    hide Announced;
  }

  lemma ReceiveReopens(d: Desktop, r: Desktop, c: Command, urlOk: bool, hostOk: bool)
    requires d.active == d.host && !d.active && d.automaticBlocked && d.link.Some? && d.link.value.down != [] && d.link.value.down[0] == Cmd(c)
    requires r == d.(link := Some(d.link.value.(down := d.link.value.down[1..])))
    ensures
      var d' := Receive(r, c, urlOk, hostOk);
      d'.active ==> Reopens(d, FrameArrives(urlOk, hostOk)) && !d'.automaticBlocked
  {
    hide Announced;
  }

  /**
   * Follow-up commands of a stopped task never reopen the browser: once blocked, only the user, a
   * new pairing, or a starter with a usable URL that passes the fence does, and starting unblocks.
   */
  lemma OnlyStarterReopens(d: Desktop, e: Event)
    requires Inv(d) && !d.active && d.automaticBlocked
    ensures Step(d, e).active ==> Reopens(d, e) && !Step(d, e).automaticBlocked
  {
    hide LinkStep, PairStep, JobStep, UserStep, DesktopReads, Reopens;
    ActiveHost(d);
    if OfPairing(e) {
      PairingReopens(d, e);
    } else if e.FrameArrives? {
      if d.link.Some? && d.link.value.down != [] { ReadsReopen(d, e.urlOk, e.hostOk); }
    } else {
      NoControlTaken(d, e);
      UserReopens(d, e);
    }
  }

  lemma PairingReopens(d: Desktop, e: Event)
    requires !d.active
    ensures PairStep(d, e).active ==> Reopens(d, e) && !PairStep(d, e).automaticBlocked
  {
    hide PairStarts, PairAnswered, PairSettles;
    match e {
      case PairRequested(expected, automatic, approved) => RequestIsNoStart(d, expected, automatic, approved);
      case DialogAnswered(allow) => if d.pairing.Asking? { AnswerIsNoStart(d, allow); }
      case PairingSettled(connected, hostOk) => if d.pairing.Connecting? { SettledReopens(d, connected, hostOk); }
      case _ =>
    }
  }

  lemma RequestIsNoStart(d: Desktop, expected: Option<nat>, automatic: bool, approved: bool)
    requires !d.active
    ensures !PairStarts(d, expected, automatic, approved).active
  {
  }

  lemma AnswerIsNoStart(d: Desktop, allow: bool)
    requires !d.active && d.pairing.Asking?
    ensures !PairAnswered(d, allow).active
  {
  }

  lemma SettledReopens(d: Desktop, connected: bool, hostOk: bool)
    requires !d.active && d.pairing.Connecting?
    ensures var d' := PairSettles(d, connected, hostOk); d'.active ==> connected && hostOk && !d'.automaticBlocked
  {
  }

  /** The link's steps and the queue's leave control alone. */
  lemma NoControlTaken(d: Desktop, e: Event)
    ensures LinkStep(d, e).active == JobStep(d, e).active == d.active
  {
    hide Moved, MayBegin, Checks, Caught;
  }

  /** Of what the user does only `show` starts anything. */
  lemma UserReopens(d: Desktop, e: Event)
    requires !d.active
    ensures UserStep(d, e).active ==> Reopens(d, e) && !UserStep(d, e).automaticBlocked
  {
    hide StopAll, Shutdown, StartNext, TabClosedSent, Announced, Passes;
    StoppedIsNoStart(d);
    StartUnblocks(d);
  }

  lemma StartUnblocks(d: Desktop)
    ensures StartNext(d, true).active && !StartNext(d, true).automaticBlocked && StartNext(d, false).active == d.active
  {
  }
}
