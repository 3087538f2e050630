/**
 * The desktop executor as the object it is, statement by statement.  Every handler takes exactly
 * the step `Fence.Step` says, so what `FenceTheorems` proves of runs holds of this object; the
 * methods that take control and give it back say what that means for their callers.
 */
module EmbeddedBrowser {
  import opened Options
  import opened Fence
  import opened FenceTheorems

  class EmbeddedBrowser {
    var generation: nat
    var commandEpoch: Option<nat>
    var active: bool
    var released: bool
    var host: bool
    var partition: bool
    var automaticBlocked: bool
    var executor: Option<nat>
    var pairing: Pairing
    /** `relay`, and its socket. */
    var client: bool
    var link: Option<Link>
    /** `queue`: how often it was reset, and the closures chained to it. */
    var lane: nat
    var jobs: seq<Job>
    ghost var hosts: nat
    var links: nat
    ghost var trace: seq<Event>

    ghost function Model(): Desktop
      reads this
    {
      Desktop(generation, commandEpoch, active, released, host, hosts, partition, automaticBlocked, executor, pairing, client,
              lane, jobs, link, links)
    }

    ghost predicate Valid()
      reads this
    {
      Model() == Exec(START, trace)
    }

    /** What every handler finds: no job is of a later generation, and no epoch announced is larger. */
    ghost predicate Sound()
      reads this
    {
      && active == host && JobsOk(jobs, generation, lane, active, released)
      && (link.Some? ==> Rising(link.value.announced, link.value.again, generation))
    }

    constructor ()
      ensures Valid() && trace == []
    {
      generation, commandEpoch, active, released, host, hosts := 0, None, false, false, false, 0;
      partition, automaticBlocked, executor, pairing, client := false, false, None, Idle, false;
      lane, jobs, link, links, trace := 0, [], None, 0, [];
    }

    ghost method Record(e: Event, before: Desktop)
      requires before == Exec(START, trace) && Model() == Step(before, e)
      modifies this`trace
      ensures Valid() && trace == old(trace) + [e]
    {
      hide Step;
      ExecAppend(START, trace, [e]);
      ExecOne(before, e);
      trace := trace + [e];
    }

    lemma ValidIsSound()
      requires Valid()
      ensures Sound()
    {
      hide Exec, WireOk;
      ReachableOk(trace);
    }

    /** The socket is open and not ready yet, and what was announced on it is no later than the epoch in force. */
    ghost predicate AwaitsReady()
      reads this
    {
      && link.Some? && !link.value.stage.Opening? && !link.value.ready
      && AnnouncedOk(link.value, commandEpoch, generation, Dormant(Model()))
      && (commandEpoch.Some? ==> commandEpoch.value <= generation)
    }

    lemma ReadyIsAwaited()
      requires Valid() && link.Some? && link.value.down != [] && link.value.down[0].Ready?
      ensures AwaitsReady()
    {
      hide Exec, AnnouncedOk, JobsOk;
      ReachableOk(trace);
      FrameTaken(link.value, commandEpoch, generation, Dormant(Model()));
    }

    lemma PairingHasNoHost()
      requires Valid() && !pairing.Idle? && pairing.generation == generation
      ensures !host
    {
      hide Exec, LinkOk, JobsOk;
      ReachableOk(trace);
    }

    // ---------------------------------------------------------------- stopping and starting

    /** `relay?.sendEvent("stopped", epoch)`. */
    method SendStopped(epoch: nat)
      modifies `link
      ensures link == Announced(old(link), epoch)
    {
      if link.Some? && !link.value.stage.Opening? {
        link := Some(link.value.(announced := link.value.announced + [epoch], up := link.value.up + [Some(epoch)]));
      }
    }

    /**
     * `stop`.  Brian loses control: everything accepted is of an older generation, no host and no
     * executor is left, and what a kept channel announces is larger than all it announced before.
     */
    method StopControl(blockAutomatic: bool, keepControlChannel: bool)
      requires Sound() && (keepControlChannel ==> blockAutomatic)
      modifies `automaticBlocked, `active, `generation, `client, `commandEpoch, `link, `partition, `executor, `host, `lane
      ensures automaticBlocked == (old(automaticBlocked) || blockAutomatic)
      ensures !active && !host && executor.None? && generation == old(generation) + 1 && lane == old(lane) + 1
      ensures if keepControlChannel
              then client == old(client) && partition == old(partition) && commandEpoch == Some(generation) && link == Announced(old(link), generation)
              else !client && !partition && commandEpoch.None? && link.None?
      ensures AllStale(jobs, generation) && AnnouncesNew(old(link), link, generation)
    {
      hide JobsOk, Rising, AllStale, AnnouncesNew, Announced;
      StopAnnouncesNew(jobs, generation, lane, active, released, link);
      NoLinkLeft(link, generation + 1);
      automaticBlocked := automaticBlocked || blockAutomatic;
      active := false;
      generation := generation + 1;
      FenceOrCloseChannel(keepControlChannel);
      CloseHost();
    }

    /** The renderers go, and with them the executor and the chain of queued commands. */
    method CloseHost()
      modifies `executor, `host, `lane
      ensures executor.None? && !host && lane == old(lane) + 1
    {
      executor := None;
      host := false;
      lane := lane + 1;
    }

    /** A kept channel is fenced by the new generation; closing it drops the pairing's partition too. */
    method FenceOrCloseChannel(keepControlChannel: bool)
      modifies `client, `commandEpoch, `link, `partition
      ensures if keepControlChannel
              then client == old(client) && partition == old(partition) && commandEpoch == Some(generation) && link == Announced(old(link), generation)
              else !client && !partition && commandEpoch.None? && link.None?
    {
      if keepControlChannel {
        commandEpoch := Some(generation);
        SendStopped(generation);
      } else {
        client := false;
        commandEpoch := None;
        link := None;
        partition := false;
      }
    }

    /** `dispose`. */
    method DisposeAll(preserveAutomaticBlock: bool)
      requires Sound()
      modifies `automaticBlocked, `active, `generation, `client, `commandEpoch, `link, `partition, `executor, `host, `lane
      ensures Model() == Dispose(old(Model()), preserveAutomaticBlock)
    {
      hide JobsOk, Rising;
      StopControl(false, false);
      if !preserveAutomaticBlock { automaticBlocked := false; }
    }

    /** `releaseControl`.  Brian loses control as by `stop`, but a host and its tabs stay, the user's. */
    method Release()
      requires Sound()
      modifies `automaticBlocked, `active, `generation, `client, `commandEpoch, `link, `partition, `executor, `host, `lane, `released
      ensures host == old(host) && client == old(client) && partition == old(partition)
      ensures executor.None? && generation == old(generation) + 1 && lane == old(lane) + 1
      ensures commandEpoch == Some(generation) && link == Announced(old(link), generation)
      ensures if host then active && released && automaticBlocked == old(automaticBlocked) else !active && released == old(released) && automaticBlocked
      ensures AllStale(jobs, generation) && AnnouncesNew(old(link), link, generation)
    {
      StopAnnouncesNew(jobs, generation, lane, active, released, link);
      hide JobsOk, Rising, AllStale, AnnouncesNew;
      if !host {
        StopControl(true, true);
        return;
      }
      generation := generation + 1;
      commandEpoch := Some(generation);
      SendStopped(generation);
      executor := None;
      released := true;
      lane := lane + 1;
    }

    /**
     * `startHost`, while no host lives.  Brian has control of the one host, through an executor of
     * the current generation, and no job that was running before may act on it.
     */
    method Start()
      requires Sound() && !host
      modifies `host, `hosts, `released, `partition, `automaticBlocked, `active, `executor
      ensures Sound() && NoneActs(jobs, generation)
      ensures Model() == StartHost(old(Model()))
      ensures host && hosts == old(hosts) + 1 && active && !released && executor == Some(generation) && partition && !automaticBlocked
    {
      hide Rising;
      NoneActsIdle(jobs, generation, lane, released);
      hide JobsOk, NoneActs;
      MoreActive(jobs, generation, lane, active, released);
      MakeHost();
    }

    /** What `startHost` assigns. */
    method MakeHost()
      modifies `host, `hosts, `released, `partition, `automaticBlocked, `active, `executor
      ensures host && hosts == old(hosts) + 1 && active && !released && executor == Some(generation) && partition && !automaticBlocked
    {
      host := true;
      hosts := hosts + 1;
      released := false;
      partition := true;
      automaticBlocked := false;
      active := true;
      executor := Some(generation);
    }

    /**
     * `this.generation++` and `startHost`, whose host may fail to be made.  Everything accepted
     * before is of an older generation, whether or not the host was made.
     */
    method StartAnother(hostOk: bool)
      requires Sound() && !host
      modifies `generation, `host, `hosts, `released, `partition, `automaticBlocked, `active, `executor
      ensures Model() == StartNext(old(Model()), hostOk)
      ensures Sound() && AllStale(jobs, generation)
      ensures generation == old(generation) + 1 && if hostOk then !released && executor == Some(generation) else host == old(host)
    {
      NextGeneration(jobs, generation, lane, active, released, link);
      hide StartHost, JobsOk, Rising, AllStale, NoneActs;
      generation := generation + 1;
      if hostOk { Start(); }
    }

    // ---------------------------------------------------------------- frames

    /** `if (this.released && this.host)`: the next task takes the user's host back. */
    method TakeHostBack()
      requires Sound()
      modifies `released, `executor
      ensures Sound() && Model() == TakeBack(old(Model()))
    {
      hide JobsOk, Rising;
      MoreActive(jobs, generation, lane, active, released);
      if released && host {
        released := false;
        executor := Some(generation);
      }
    }

    /**
     * `receive`.  A command of another epoch changes nothing, Stop takes control, and any other is
     * queued at most once, last, with the generation that is current when it is.
     */
    method ReceiveCommand(cmd: Command, urlOk: bool, hostOk: bool)
      requires Sound()
      modifies this
      ensures trace == old(trace)
      ensures Model() == Receive(old(Model()), cmd, urlOk, hostOk)
      ensures old(commandEpoch).Some? && cmd.controlEpoch != old(commandEpoch) ==> Model() == old(Model())
      ensures jobs == old(jobs) || (cmd.op != Stop && jobs == old(jobs) + [Job(cmd, generation, lane, Queued, 0)])
      ensures cmd.op == Stop && generation != old(generation) ==> AllStale(jobs, generation) && AnnouncesNew(old(link), link, generation)
    {
      hide JobsOk, Rising, AllStale, AnnouncesNew, Announced, Accept;
      if commandEpoch.Some? && cmd.controlEpoch != commandEpoch { return; }
      if cmd.op == Stop { Release(); return; }
      AcceptCommand(cmd, urlOk, hostOk);
    }

    /** `receive` past the fence and Stop. */
    method AcceptCommand(cmd: Command, urlOk: bool, hostOk: bool)
      requires Sound()
      modifies `released, `executor, `generation, `host, `hosts, `partition, `automaticBlocked, `active, `jobs
      ensures Model() == Accept(old(Model()), cmd, urlOk, hostOk)
      ensures jobs == old(jobs) || jobs == old(jobs) + [Job(cmd, generation, lane, Queued, 0)]
      ensures !released || !host
    {
      hide StartHost, JobsOk, Rising, AllStale;
      TakeHostBack();
      var starter := cmd.op == Navigate || cmd.op == OpenTab;
      if !active && partition && (starter || !automaticBlocked) {
        if starter && !urlOk { return; }
        StartAnother(hostOk);
        if !hostOk { return; }
      }
      jobs := jobs + [Job(cmd, generation, lane, Queued, 0)];
    }

    /**
     * `onStateChange("ready")`.  Control that Brian holds drops its fence and announces nothing.
     * Control that was taken from him keeps its epoch, announces it after everything announced on
     * this link before, and so it is again the link's latest.
     */
    method BecameReady()
      requires AwaitsReady()
      modifies `link, `commandEpoch
      ensures Model() == OnReady(old(Model()))
      ensures link.Some? && link.value.ready && AnnouncedOk(link.value, commandEpoch, generation, Dormant(Model()))
      ensures active && !released ==> commandEpoch.None? && link.value.announced == []
      ensures !(active && !released) && old(commandEpoch).Some? ==> FencedAfresh(old(Model()), Model())
    {
      ReadyAnnounces(link.value, commandEpoch, generation, Dormant(Model()));
      hide AnnouncedOk, FencedAfresh, Announced;
      link := Some(link.value.(ready := true));
      if active && !released {
        commandEpoch := None;
      } else if commandEpoch.Some? {
        link := Some(Repeating(link.value));
        SendStopped(commandEpoch.value);
      }
    }

    /** `onStateChange("unpaired")` and `("replaced")`, also what a refusal comes to. */
    method LosePairing()
      requires Sound()
      modifies `automaticBlocked, `active, `generation, `client, `commandEpoch, `link, `partition, `executor, `host, `lane
      ensures Model() == StopAll(old(Model()), true)
    {
      hide JobsOk, Rising, AllStale, AnnouncesNew, Announced;
      StopControl(true, false);
    }

    /** The socket's next frame, by its kind. */
    method ReadFrame(urlOk: bool, hostOk: bool)
      requires Sound() && link.Some? && link.value.down != [] && (link.value.down[0].Ready? ==> AwaitsReady())
      modifies this
      ensures trace == old(trace) && Model() == DesktopReads(old(Model()), urlOk, hostOk)
    {
      hide Receive, OnReady, StopAll, JobsOk, Rising, Announced, AllStale, AnnouncesNew, FencedAfresh;
      var frame := link.value.down[0];
      link := Some(link.value.(down := link.value.down[1..]));
      match frame {
        case Cmd(c) => ReceiveCommand(c, urlOk, hostOk);
        case Ready => BecameReady();
        case Refusal => LosePairing();
      }
    }

    /** The socket delivers its next frame. */
    method OnFrame(urlOk: bool, hostOk: bool)
      requires Valid() && link.Some? && link.value.down != []
      modifies this
      ensures Valid() && trace == old(trace) + [FrameArrives(urlOk, hostOk)]
    {
      hide Exec, JobsOk, Rising, AnnouncedOk, DesktopReads, UserStep, PairStep, JobStep, LinkStep;
      ValidIsSound();
      if link.value.down[0].Ready? { ReadyIsAwaited(); }
      ghost var before := Model();
      ReadFrame(urlOk, hostOk);
      Record(FrameArrives(urlOk, hostOk), before);
    }

    /** What the socket and the relay do to the link between two handlers. */
    method MoveLink(e: Event)
      modifies `link, `links
      ensures Model() == LinkStep(old(Model()), e)
    {
      hide Moved;
      if e.Disconnected? {
        link := None;
      } else if e.Connected? {
        if client && link.None? {
          link := Some(Link(links, Opening, false, [], None, [], 0, None, []));
          links := links + 1;
        }
      } else if link.Some? {
        link := Some(Moved(link.value, e));
      }
    }

    method OnLink(e: Event)
      requires Valid() && OfLink(e)
      modifies this
      ensures Valid() && trace == old(trace) + [e]
    {
      hide Exec, LinkStep;
      ghost var before := Model();
      MoveLink(e);
      Record(e, before);
    }

    /** The relay unpaired this desktop, or another desktop replaced it. */
    method OnUnpaired()
      requires Valid()
      modifies this
      ensures Valid() && trace == old(trace) + [Unpaired]
    {
      hide Exec, StopAll, JobsOk, Rising, LinkStep, PairStep, JobStep, DesktopReads;
      ValidIsSound();
      ghost var before := Model();
      if client { LosePairing(); }
      Record(Unpaired, before);
    }

    // ---------------------------------------------------------------- the user

    /** The toolbar's Stop. */
    method OnToolbarStop()
      requires Valid()
      modifies this
      ensures Valid() && trace == old(trace) + [ToolbarStop]
      ensures old(host) ==> host && AllStale(jobs, generation) && AnnouncesNew(old(link), link, generation)
    {
      hide Exec, JobsOk, Rising, AllStale, AnnouncesNew, Announced, LinkStep, PairStep, JobStep, DesktopReads;
      ValidIsSound();
      ghost var before := Model();
      if host { Release(); }
      Record(ToolbarStop, before);
    }

    /** The host's last tab was closed. */
    method OnEmpty()
      requires Valid()
      modifies this
      ensures Valid() && trace == old(trace) + [LastTabClosed]
      ensures old(host) ==> !host && AllStale(jobs, generation) && AnnouncesNew(old(link), link, generation)
    {
      hide Exec, JobsOk, Rising, AllStale, AnnouncesNew, Announced, LinkStep, PairStep, JobStep, DesktopReads;
      ValidIsSound();
      ghost var before := Model();
      if host { StopControl(true, true); }
      Record(LastTabClosed, before);
    }

    /** The host was closed. */
    method OnHostClosed()
      requires Valid()
      modifies this
      ensures Valid() && trace == old(trace) + [HostClosed]
    {
      hide Exec, Dispose, JobsOk, Rising, LinkStep, PairStep, JobStep, DesktopReads;
      ValidIsSound();
      ghost var before := Model();
      if host { DisposeAll(false); }
      Record(HostClosed, before);
    }

    /** The debugger of the executor's tab was taken away. */
    method OnDetached()
      requires Valid()
      modifies this
      ensures Valid() && trace == old(trace) + [DebuggerDetached]
    {
      hide Exec, JobsOk, Rising, LinkStep, PairStep, JobStep, DesktopReads;
      ValidIsSound();
      ghost var before := Model();
      if host && executor.Some? { StopControl(true, false); }
      Record(DebuggerDetached, before);
    }

    /** The executor's tab was closed: `relay?.sendEvent("tab_closed")`. */
    method OnTabClosed()
      requires Valid()
      modifies this
      ensures Valid() && trace == old(trace) + [AttachedTabClosed]
    {
      hide Exec, LinkStep, PairStep, JobStep, DesktopReads;
      ghost var before := Model();
      if host && executor.Some? && link.Some? && !link.value.stage.Opening? {
        link := Some(link.value.(up := link.value.up + [None]));
      }
      Record(AttachedTabClosed, before);
    }

    /** `show`. */
    method OnShow(hostOk: bool)
      requires Valid()
      modifies this
      ensures Valid() && trace == old(trace) + [ShowPressed(hostOk)]
    {
      hide Exec, StartNext, JobsOk, Rising, AllStale, LinkStep, PairStep, JobStep, DesktopReads;
      ValidIsSound();
      ghost var before := Model();
      if !host && partition && client && link.Some? && link.value.ready {
        StartAnother(hostOk);
      }
      Record(ShowPressed(hostOk), before);
    }

    /** `pair` up to its first `await`. */
    method StartPairing(expected: Option<nat>, automatic: bool, approved: bool)
      requires Sound()
      modifies this
      ensures trace == old(trace) && Model() == PairStarts(old(Model()), expected, automatic, approved)
    {
      hide Dispose, JobsOk, Rising;
      if !pairing.Idle? || (expected.Some? && expected.value != generation) { return; }
      if automatic && (automaticBlocked || active || partition) { return; }
      DisposeAll(false);
      pairing := if approved then Connecting(generation, automatic) else Asking(generation, automatic);
      client := approved;
    }

    method BeginPairing(expected: Option<nat>, automatic: bool, approved: bool)
      requires Valid()
      modifies this
      ensures Valid() && trace == old(trace) + [PairRequested(expected, automatic, approved)]
    {
      hide Exec, JobsOk, Rising, PairStarts;
      ValidIsSound();
      ghost var before := Model();
      StartPairing(expected, automatic, approved);
      Record(PairRequested(expected, automatic, approved), before);
    }

    /** `pair` after the dialog: an answer acts only if nothing took control meanwhile. */
    method AnswerPairing(allow: bool)
      requires pairing.Asking?
      modifies `pairing, `automaticBlocked, `client, `link
      ensures Model() == PairAnswered(old(Model()), allow)
    {
      var asked := pairing;
      if asked.generation == generation && allow {
        pairing := Connecting(asked.generation, asked.automatic);
        client := true;
        link := None;
      } else {
        pairing := Idle;
        automaticBlocked := automaticBlocked || asked.generation == generation;
      }
    }

    method DialogClosed(allow: bool)
      requires Valid() && pairing.Asking?
      modifies this
      ensures Valid() && trace == old(trace) + [DialogAnswered(allow)]
    {
      hide Exec, PairAnswered;
      ghost var before := Model();
      AnswerPairing(allow);
      Record(DialogAnswered(allow), before);
    }

    /** `pair` after the relay became ready, gave up or timed out. */
    method SettlePairing(connected: bool, hostOk: bool)
      requires Sound() && pairing.Connecting? && (pairing.generation == generation ==> !host)
      modifies this
      ensures trace == old(trace) && Model() == PairSettles(old(Model()), connected, hostOk)
    {
      hide Dispose, StartHost, JobsOk, Rising, NoneActs;
      var asked := pairing;
      pairing := Idle;
      if asked.generation != generation { return; }
      if !connected || (!asked.automatic && !hostOk) {
        DisposeAll(false);
      } else if asked.automatic {
        partition := true;
        automaticBlocked := false;
      } else {
        Start();
      }
    }

    method FinishPairing(connected: bool, hostOk: bool)
      requires Valid() && pairing.Connecting?
      modifies this
      ensures Valid() && trace == old(trace) + [PairingSettled(connected, hostOk)]
    {
      hide Exec, JobsOk, Rising, PairSettles;
      ValidIsSound();
      if pairing.generation == generation { PairingHasNoHost(); }
      ghost var before := Model();
      SettlePairing(connected, hostOk);
      Record(PairingSettled(connected, hostOk), before);
    }

    /** `dispose`, also what `cancelPending` does while pairing. */
    method OnDispose(preserveAutomaticBlock: bool)
      requires Valid()
      modifies this
      ensures Valid() && trace == old(trace) + [Disposed(preserveAutomaticBlock)]
    {
      hide Dispose, Exec, JobsOk, Rising, LinkStep, PairStep, JobStep, DesktopReads;
      ValidIsSound();
      ghost var before := Model();
      DisposeAll(preserveAutomaticBlock);
      Record(Disposed(preserveAutomaticBlock), before);
    }

    // ---------------------------------------------------------------- the queue

    /** The job's turn in the promise chain: `check`, then `execute`, or the `catch`. */
    method BeginJob(i: nat)
      requires Valid() && MayBegin(jobs, i)
      modifies this
      ensures Valid() && trace == old(trace) + [Began(i)]
    {
      hide Exec, JobBegins, LinkStep, UserStep, PairStep, DesktopReads;
      ghost var before := Model();
      TakeTurn(i);
      Record(Began(i), before);
    }

    method TakeTurn(i: nat)
      requires i < |jobs|
      modifies `jobs
      ensures Model() == JobBegins(old(Model()), i)
    {
      var j := jobs[i];
      if active && j.generation == generation {
        jobs := jobs[i := j.(state := Executing)];
      } else {
        FailJob(i);
      }
    }

    /** The `catch` of the queued closure: the failure of an older generation is not published. */
    method FailJob(i: nat)
      requires i < |jobs|
      modifies `jobs
      ensures jobs == old(jobs)[i := old(jobs)[i].(state := if old(jobs)[i].generation != generation then Dropped else Failed)]
    {
      var j := jobs[i];
      if j.generation != generation {
        jobs := jobs[i := j.(state := Dropped)];
      } else {
        jobs := jobs[i := j.(state := Failed)];
      }
    }

    /** One debugger call of `execute`: its platform checks first. */
    method CallDebugger(i: nat)
      requires Valid() && i < |jobs| && jobs[i].state.Executing?
      modifies this
      ensures Valid() && trace == old(trace) + [Acted(i)]
    {
      hide Exec, JobActs, LinkStep, UserStep, PairStep, DesktopReads, MayBegin;
      ghost var before := Model();
      ActOrFail(i);
      Record(Acted(i), before);
    }

    method ActOrFail(i: nat)
      requires i < |jobs|
      modifies `jobs
      ensures Model() == JobActs(old(Model()), i)
    {
      var j := jobs[i];
      if active && j.generation == generation {
        jobs := jobs[i := j.(effects := j.effects + 1)];
      } else {
        FailJob(i);
      }
    }

    /** After `execute`: a second `check`, then the result. */
    method EndJob(i: nat, threw: bool)
      requires Valid() && i < |jobs| && jobs[i].state.Executing?
      modifies this
      ensures Valid() && trace == old(trace) + [Ended(i, threw)]
      ensures generation == old(generation) && active == old(active)
      ensures jobs == old(jobs)[i := old(jobs[i]).(state := if old(jobs[i]).generation != generation then Dropped
                                                            else if threw || !active then Failed else Succeeded)]
    {
      hide Exec, JobEnds, LinkStep, UserStep, PairStep, DesktopReads, MayBegin;
      ghost var before := Model();
      PublishOrFail(i, threw);
      Record(Ended(i, threw), before);
    }

    method PublishOrFail(i: nat, threw: bool)
      requires i < |jobs|
      modifies `jobs
      ensures Model() == JobEnds(old(Model()), i, threw)
      ensures jobs == old(jobs)[i := old(jobs[i]).(state := if old(jobs[i]).generation != generation then Dropped
                                                            else if threw || !active then Failed else Succeeded)]
    {
      var j := jobs[i];
      if !threw && active && j.generation == generation {
        jobs := jobs[i := j.(state := Succeeded)];
      } else {
        FailJob(i);
      }
    }
  }

  /** Nothing that was accepted may act or publish any more. */
  ghost predicate AllStale(jobs: seq<Job>, generation: nat) {
    forall i | 0 <= i < |jobs| :: jobs[i].generation < generation
  }

  /** No job that is running may act any more. */
  ghost predicate NoneActs(jobs: seq<Job>, generation: nat) {
    forall i | 0 <= i < |jobs| && jobs[i].state.Executing? :: jobs[i].generation < generation
  }

  lemma NoneActsIdle(jobs: seq<Job>, generation: nat, lane: nat, released: bool)
    requires JobsOk(jobs, generation, lane, false, released)
    ensures NoneActs(jobs, generation)
  {
  }

  lemma NextGeneration(jobs: seq<Job>, generation: nat, lane: nat, active: bool, released: bool, link: Option<Link>)
    requires JobsOk(jobs, generation, lane, active, released)
    requires link.Some? ==> Rising(link.value.announced, link.value.again, generation)
    ensures AllStale(jobs, generation + 1) && JobsOk(jobs, generation + 1, lane, active, released)
    ensures link.Some? ==> Rising(link.value.announced, link.value.again, generation + 1)
  {
    OlderJobs(jobs, generation, lane, active, released);
    NewGeneration(jobs, generation, lane, active, released, lane, active, released);
    hide JobsOk;
  }

  /** On a link that is kept and open, one more epoch is announced, larger than all before. */
  ghost predicate AnnouncesNew(before: Option<Link>, after: Option<Link>, epoch: nat) {
    after.Some? ==> before.Some? && (before.value.stage.Opening? || AnnouncedNew(before.value, after.value, epoch))
  }

  lemma StopAnnouncesNew(jobs: seq<Job>, generation: nat, lane: nat, active: bool, released: bool, link: Option<Link>)
    requires JobsOk(jobs, generation, lane, active, released)
    requires link.Some? ==> Rising(link.value.announced, link.value.again, generation)
    ensures AllStale(jobs, generation + 1) && AnnouncesNew(link, Announced(link, generation + 1), generation + 1)
  {
    OlderJobs(jobs, generation, lane, active, released);
    hide JobsOk;
  }

  lemma NoLinkLeft(before: Option<Link>, epoch: nat)
    ensures AnnouncesNew(before, None, epoch)
  {
  }
}
