/** What the desktop does with each command it is sent: whether it is accepted, and what is published of it. */
module FenceHandlers {
  import opened Options
  import opened Fence
  import opened FenceTheorems

  // ---------------------------------------------------------------- which events change control

  /** The next frame is a command other than Stop that passes the fence. */
  predicate CommandArrives(d: Desktop) {
    && d.link.Some? && d.link.value.down != [] && d.link.value.down[0].Cmd?
    && d.link.value.down[0].command.op != Stop && Passes(d, d.link.value.down[0].command)
  }

  /** A command needs a host that is not there: paired, and control is not blocked or the command is a starter. */
  predicate NeedsHost(d: Desktop, c: Command) {
    !d.active && d.partition && (StartsHost(c.op) || !d.automaticBlocked)
  }

  /** `pair` goes ahead: no other is under way, nothing changed since the caller looked, and what is automatic overrides nothing. */
  predicate MayPair(d: Desktop, expected: Option<nat>, automatic: bool) {
    && d.pairing.Idle? && (expected.Some? ==> expected.value == d.generation)
    && (automatic ==> !d.automaticBlocked && !d.active && !d.partition)
  }

  /** Control is taken, or given anew. */
  predicate ChangesControl(d: Desktop, e: Event) {
    || TakesControl(d, e)
    || match e
       case ShowPressed(_) => !d.host && d.partition && d.client && d.link.Some? && d.link.value.ready
       case FrameArrives(urlOk, _) =>
         CommandArrives(d) && NeedsHost(d, d.link.value.down[0].command) && (StartsHost(d.link.value.down[0].command.op) ==> urlOk)
       case PairRequested(expected, automatic, _) => MayPair(d, expected, automatic)
       case PairingSettled(connected, hostOk) =>
         d.pairing.Connecting? && d.pairing.generation == d.generation && (!connected || (!d.pairing.automatic && !hostOk))
       case _ => false
  }

  /** Every change of control is a new generation, and nothing else is. */
  lemma GenerationCountsChanges(d: Desktop, e: Event)
    requires Inv(d)
    ensures Step(d, e).generation == d.generation + if ChangesControl(d, e) then 1 else 0
  {
    hide Inv, LinkStep, PairStep, JobStep, UserStep, DesktopReads, ChangesControl;
    ActiveHost(d);
    if OfLink(e) || OfJobs(e) {
      LinksAndJobsChangeNothing(d, e);
    } else if OfPairing(e) {
      PairingChanges(d, e);
    } else if e.FrameArrives? {
      if d.link.Some? && d.link.value.down != [] { FrameChanges(d, e.urlOk, e.hostOk); } else { NoFrameChanges(d, e); }
    } else {
      UserChanges(d, e);
    }
  }

  lemma LinksAndJobsChangeNothing(d: Desktop, e: Event)
    ensures LinkStep(d, e).generation == JobStep(d, e).generation == d.generation
    ensures OfLink(e) || OfJobs(e) ==> !ChangesControl(d, e)
  {
    hide LinkStep, JobStep;
    LinkChangesNothing(d, e);
    JobsChangeNothing(d, e);
  }

  lemma LinkChangesNothing(d: Desktop, e: Event)
    ensures LinkStep(d, e).generation == d.generation
  {
    hide Moved;
  }

  lemma JobsChangeNothing(d: Desktop, e: Event)
    ensures JobStep(d, e).generation == d.generation
  {
    hide MayBegin, Checks, Caught;
  }

  lemma PairingChanges(d: Desktop, e: Event)
    requires OfPairing(e)
    ensures PairStep(d, e).generation == d.generation + if ChangesControl(d, e) then 1 else 0
  {
    hide PairStarts, PairAnswered, PairSettles, MayPair;
    match e {
      case PairRequested(expected, automatic, approved) => RequestChanges(d, expected, automatic, approved);
      case DialogAnswered(allow) => if d.pairing.Asking? { AnswerChanges(d, allow); }
      case PairingSettled(connected, hostOk) => if d.pairing.Connecting? { SettledChanges(d, connected, hostOk); }
    }
  }

  lemma RequestChanges(d: Desktop, expected: Option<nat>, automatic: bool, approved: bool)
    ensures PairStarts(d, expected, automatic, approved).generation == d.generation + if MayPair(d, expected, automatic) then 1 else 0
  {
  }

  lemma AnswerChanges(d: Desktop, allow: bool)
    requires d.pairing.Asking?
    ensures PairAnswered(d, allow).generation == d.generation
  {
  }

  lemma SettledChanges(d: Desktop, connected: bool, hostOk: bool)
    requires d.pairing.Connecting?
    ensures
      PairSettles(d, connected, hostOk).generation ==
      d.generation + if d.pairing.generation == d.generation && (!connected || (!d.pairing.automatic && !hostOk)) then 1 else 0
  {
    hide Dispose, StartHost;
    StoppingChanges(d.(pairing := Idle), false);
  }

  /** Every way of taking control, and of giving it, moves the generation as it says. */
  lemma StoppingChanges(d: Desktop, block: bool)
    ensures StopAll(d, block).generation == Dispose(d, block).generation == Shutdown(d).generation == d.generation + 1
    ensures StartHost(d).generation == d.generation
  {
  }

  lemma NoFrameChanges(d: Desktop, e: Event)
    requires e.FrameArrives? && (d.link.None? || d.link.value.down == [])
    ensures !ChangesControl(d, e)
  {
  }

  lemma FrameChanges(d: Desktop, urlOk: bool, hostOk: bool)
    requires d.active == d.host && d.link.Some? && d.link.value.down != []
    ensures DesktopReads(d, urlOk, hostOk).generation == d.generation + if ChangesControl(d, FrameArrives(urlOk, hostOk)) then 1 else 0
  {
    hide Announced;
    var l := d.link.value;
    var r := d.(link := Some(l.(down := l.down[1..])));
    match l.down[0] {
      case Ready => ReadyChanges(r);
      case Refusal =>
      case Cmd(c) => ReceiveChanges(r, c, urlOk, hostOk);
    }
    hide Receive, OnReady, StopAll;
  }

  lemma ReadyChanges(d: Desktop)
    requires d.link.Some?
    ensures OnReady(d).generation == d.generation
  {
    hide Announced, Repeating;
  }

  lemma ReceiveChanges(d: Desktop, c: Command, urlOk: bool, hostOk: bool)
    ensures
      Receive(d, c, urlOk, hostOk).generation ==
      d.generation + if Passes(d, c) && (c.op == Stop || (NeedsHost(d, c) && (StartsHost(c.op) ==> urlOk))) then 1 else 0
  {
    hide ReleaseControl, Accept, NeedsHost, Passes;
    ReleaseChanges(d);
    AcceptChanges(d, c, urlOk, hostOk);
  }

  lemma ReleaseChanges(d: Desktop)
    ensures ReleaseControl(d).generation == d.generation + 1
  {
    hide Announced;
  }

  lemma AcceptChanges(d: Desktop, c: Command, urlOk: bool, hostOk: bool)
    ensures Accept(d, c, urlOk, hostOk).generation == d.generation + if NeedsHost(d, c) && (StartsHost(c.op) ==> urlOk) then 1 else 0
  {
    hide StartHost, TakeBack;
    TakenBack(d);
    StartNextGeneration(TakeBack(d), hostOk);
  }

  /** Taking the host back changes who may act, nothing else. */
  lemma TakenBack(d: Desktop)
    ensures
      var t := TakeBack(d);
      && t.generation == d.generation && t.active == d.active && t.partition == d.partition && t.automaticBlocked == d.automaticBlocked
      && t.host == d.host && t.hosts == d.hosts && t.jobs == d.jobs && t.lane == d.lane && t.link == d.link
      && (d.host ==> !t.released)
  {
  }

  lemma StartNextGeneration(d: Desktop, hostOk: bool)
    ensures StartNext(d, hostOk).generation == d.generation + 1
  {
  }

  lemma UserChanges(d: Desktop, e: Event)
    requires d.active == d.host && !OfLink(e) && !OfPairing(e) && !OfJobs(e) && !e.FrameArrives?
    ensures UserStep(d, e).generation == d.generation + if ChangesControl(d, e) then 1 else 0
  {
    hide StopAll, Dispose, Shutdown, ReleaseControl, StartNext, TabClosedSent;
    StoppingChanges(d, true);
    StoppingChanges(d, false);
    ReleaseChanges(d);
    match e {
      case ShowPressed(hostOk) => StartNextGeneration(d, hostOk);
      case _ =>
    }
  }

  // ---------------------------------------------------------------- the relay's side of the link

  /**
   * The relay turns a hello down once and says so; it takes events in order, and only a Stop's changes what it
   * puts on a command; a command it dispatches carries the last epoch it read, a queued Stop none.
   */
  lemma RelaySideMeans(l: Link, op: Op)
    ensures Moved(l, RelayRefused) == if l.stage.Greeting? then l.(stage := Refused, down := [Refusal]) else l
    ensures l.stage.Registered? ==>
      && Moved(l, RelayDispatches(op)) == l.(down := l.down + [Cmd(Command(op, l.relayEpoch, false, l.processed))])
      && Moved(l, RelayDeliversStop) == l.(down := l.down + [Cmd(Command(Stop, None, true, l.processed))])
    ensures l.stage.Registered? && l.up != [] ==>
      Moved(l, RelayHandlesEvent) ==
      if l.up[0].None? then l.(up := l.up[1..]) else l.(up := l.up[1..], relayEpoch := l.up[0], processed := l.processed + 1)
  {
  }

  lemma RelayMovesLink(d: Desktop, e: Event)
    requires e.RelayAdmitted? || e.RelayRefused? || e.RelayHandlesEvent? || e.RelayDispatches? || e.RelayDeliversStop?
    ensures Step(d, e) == if d.link.Some? then d.(link := Some(Moved(d.link.value, e))) else d
  {
    hide Moved;
  }

  // ---------------------------------------------------------------- what is blocked

  /** Nothing automatic may take control from now on. */
  predicate Blocks(d: Desktop, e: Event) {
    match e
    case Unpaired => d.client
    case LastTabClosed => d.host
    case DebuggerDetached => d.host && d.executor.Some?
    case DialogAnswered(allow) => d.pairing.Asking? && d.pairing.generation == d.generation && !allow
    case FrameArrives(_, _) => ArrivingFrameBlocks(d)
    case _ => false
  }

  /** The relay turned the desktop down, or Stop came while there was no host to release. */
  predicate ArrivingFrameBlocks(d: Desktop) {
    && d.link.Some? && d.link.value.down != []
    && match d.link.value.down[0]
       case Refusal => true
       case Cmd(c) => Passes(d, c) && c.op == Stop && !d.host
       case Ready => false
  }

  /** The user took control in hand, or gave it: a host was made, pairing began or ended, the host was closed. */
  predicate Lifts(d: Desktop, e: Event) {
    match e
    case HostClosed => d.host
    case Disposed(preserve) => !preserve
    case PairRequested(expected, automatic, _) => MayPair(d, expected, automatic)
    case PairingSettled(_, _) => d.pairing.Connecting? && d.pairing.generation == d.generation
    case ShowPressed(hostOk) => hostOk && !d.host && d.partition && d.client && d.link.Some? && d.link.value.ready
    case FrameArrives(urlOk, hostOk) =>
      hostOk && CommandArrives(d) && NeedsHost(d, d.link.value.down[0].command) && (StartsHost(d.link.value.down[0].command.op) ==> urlOk)
    case _ => false
  }

  /** The automatic block is set and lifted by these events, and by nothing else. */
  lemma BlockedExactlyWhen(d: Desktop, e: Event)
    requires Inv(d)
    ensures Step(d, e).automaticBlocked == (Blocks(d, e) || (d.automaticBlocked && !Lifts(d, e)))
  {
    hide Inv, LinkStep, PairStep, JobStep, UserStep, DesktopReads;
    ActiveHost(d);
    if OfLink(e) || OfJobs(e) {
      LinksAndJobsKeepBlock(d, e);
    } else if OfPairing(e) {
      PairingBlocks(d, e);
    } else if e.FrameArrives? {
      if d.link.Some? && d.link.value.down != [] { FrameBlocks(d, e.urlOk, e.hostOk); }
    } else {
      UserBlocks(d, e);
    }
  }

  lemma LinksAndJobsKeepBlock(d: Desktop, e: Event)
    ensures LinkStep(d, e).automaticBlocked == JobStep(d, e).automaticBlocked == d.automaticBlocked
  {
    hide Moved, MayBegin, Checks, Caught;
  }

  lemma PairingBlocks(d: Desktop, e: Event)
    requires OfPairing(e)
    ensures PairStep(d, e).automaticBlocked == (Blocks(d, e) || (d.automaticBlocked && !Lifts(d, e)))
  {
  }

  lemma FrameBlocks(d: Desktop, urlOk: bool, hostOk: bool)
    requires d.active == d.host && d.link.Some? && d.link.value.down != []
    ensures
      var e := FrameArrives(urlOk, hostOk);
      DesktopReads(d, urlOk, hostOk).automaticBlocked == (Blocks(d, e) || (d.automaticBlocked && !Lifts(d, e)))
  {
    hide Announced;
    var l := d.link.value;
    var r := d.(link := Some(l.(down := l.down[1..])));
    match l.down[0] {
      case Ready => ReadyKeepsBlock(r);
      case Refusal =>
      case Cmd(c) => ReceiveBlocks(r, c, urlOk, hostOk);
    }
    hide Receive, OnReady;
  }

  lemma ReadyKeepsBlock(d: Desktop)
    requires d.link.Some?
    ensures OnReady(d).automaticBlocked == d.automaticBlocked
  {
    hide Announced, Repeating;
  }

  lemma ReceiveBlocks(d: Desktop, c: Command, urlOk: bool, hostOk: bool)
    ensures
      Receive(d, c, urlOk, hostOk).automaticBlocked ==
      if !Passes(d, c) then d.automaticBlocked
      else if c.op == Stop then d.automaticBlocked || !d.host
      else d.automaticBlocked && !(NeedsHost(d, c) && (StartsHost(c.op) ==> urlOk) && hostOk)
  {
    hide ReleaseControl, Accept, NeedsHost, Passes;
    ReleaseBlocks(d);
    AcceptLifts(d, c, urlOk, hostOk);
  }

  lemma ReleaseBlocks(d: Desktop)
    ensures ReleaseControl(d).automaticBlocked == (d.automaticBlocked || !d.host)
  {
    hide Announced;
  }

  lemma AcceptLifts(d: Desktop, c: Command, urlOk: bool, hostOk: bool)
    ensures
      Accept(d, c, urlOk, hostOk).automaticBlocked ==
      (d.automaticBlocked && !(NeedsHost(d, c) && (StartsHost(c.op) ==> urlOk) && hostOk))
  {
    TakenBack(d);
    hide TakeBack;
  }

  lemma UserBlocks(d: Desktop, e: Event)
    requires d.active == d.host && !OfLink(e) && !OfPairing(e) && !OfJobs(e) && !e.FrameArrives?
    ensures UserStep(d, e).automaticBlocked == (Blocks(d, e) || (d.automaticBlocked && !Lifts(d, e)))
  {
    hide Announced, TabClosedSent;
  }

  // ---------------------------------------------------------------- what is published

  /** The closure of job `i` succeeds now: it ends without an error in the generation that is current. */
  predicate SucceedsNow(d: Desktop, e: Event, i: nat) {
    e == Ended(i, false) && i < |d.jobs| && d.jobs[i].state.Executing? && d.jobs[i].generation == d.generation
  }

  /** It fails now, in the current generation: control was not active when its turn came, or it threw. */
  predicate FailsNow(d: Desktop, e: Event, i: nat) {
    && i < |d.jobs| && d.jobs[i].generation == d.generation
    && ((e == Began(i) && MayBegin(d.jobs, i) && !d.active) || (e == Ended(i, true) && d.jobs[i].state.Executing?))
  }

  /** It ends now, in whatever way, of an older generation. */
  predicate DropsNow(d: Desktop, e: Event, i: nat) {
    && i < |d.jobs| && d.jobs[i].generation != d.generation
    && ((e == Began(i) && MayBegin(d.jobs, i)) || ((e == Acted(i) || (e.Ended? && e.job == i)) && d.jobs[i].state.Executing?))
  }

  predicate Over(s: JobState) {
    s.Succeeded? || s.Failed? || s.Dropped?
  }

  /**
   * A command's turn comes exactly when every earlier one of its queue is over; it then executes if control
   * is still what it was and active, and otherwise ends at once, without a word if control has changed.
   */
  lemma BeginsExactlyWhen(d: Desktop, i: nat)
    requires i < |d.jobs|
    ensures
      var q, j := Step(d, Began(i)), d.jobs[i];
      if j.state.Queued? && forall h: nat :: h < i && d.jobs[h].lane == j.lane ==> Over(d.jobs[h].state)
      then q == d.(jobs := d.jobs[i := j.(state := if j.generation != d.generation then Dropped else if d.active then Executing else Failed)])
      else q == d
  {
  }

  /** A debugger call of an executing command acts once exactly if control is still what it was and active; otherwise the command is over. */
  lemma ActsExactlyWhen(d: Desktop, i: nat)
    requires i < |d.jobs| && d.jobs[i].state.Executing?
    ensures
      var j := d.jobs[i];
      Step(d, Acted(i)) ==
      d.(jobs := d.jobs[i := if j.generation != d.generation then j.(state := Dropped)
                             else if d.active then j.(effects := j.effects + 1) else j.(state := Failed)])
  {
  }

  /** Whether the closure of job `i` ends now, as `how`. */
  predicate EndsAs(d: Desktop, e: Event, i: nat, how: JobState) {
    match how
    case Succeeded => SucceedsNow(d, e, i)
    case Failed => FailsNow(d, e, i)
    case Dropped => DropsNow(d, e, i)
    case _ => false
  }

  /** What one step makes of a job: how it ends, if it ends now; otherwise at most its turn comes. */
  ghost predicate Becomes(d: Desktop, e: Event, i: nat, later: Job)
    requires i < |d.jobs|
  {
    var j := d.jobs[i];
    && later.generation == j.generation
    && (forall how: JobState :: EndsAs(d, e, i, how) ==> later.state == how && !Over(j.state))
    && ((forall how: JobState :: !EndsAs(d, e, i, how)) ==> later.state == j.state || (j.state.Queued? && later.state.Executing?))
  }

  lemma JobStepIs(d: Desktop, e: Event, i: nat)
    requires Inv(d) && i < |d.jobs|
    ensures i < |Step(d, e).jobs| && Becomes(d, e, i, Step(d, e).jobs[i])
  {
    hide Inv, LinkStep, PairStep, JobStep, UserStep, DesktopReads, Becomes;
    RunningIsActive(d, i);
    if OfJobs(e) {
      QueueStepIs(d, e, i);
    } else {
      OthersKeepJobs(d, e);
      StaysAsItIs(d, e, i);
      hide Step;
    }
  }

  lemma StaysAsItIs(d: Desktop, e: Event, i: nat)
    requires !OfJobs(e) && i < |d.jobs|
    ensures Becomes(d, e, i, d.jobs[i])
  {
  }

  lemma RunningIsActive(d: Desktop, i: nat)
    requires Inv(d) && i < |d.jobs|
    ensures d.jobs[i].state.Executing? && d.jobs[i].generation == d.generation ==> d.active
  {
    hide ControlOk;
  }

  lemma QueueStepIs(d: Desktop, e: Event, i: nat)
    requires OfJobs(e) && i < |d.jobs| && (d.jobs[i].state.Executing? && d.jobs[i].generation == d.generation ==> d.active)
    ensures i < |JobStep(d, e).jobs| && Becomes(d, e, i, JobStep(d, e).jobs[i])
  {
    hide JobBegins, JobActs, JobEnds, Becomes, MayBegin;
    match e {
      case Began(k) =>
        if MayBegin(d.jobs, k) { BeginIndex(d.jobs, k); BeganIs(d, k); }
        BeganBecomes(d, k, i);
      case Acted(k) =>
        if k < |d.jobs| { ActedIs(d, k); }
        ActedBecomes(d, k, i);
      case Ended(k, threw) =>
        if k < |d.jobs| { EndedIs(d, k, threw); }
        EndedBecomes(d, k, threw, i);
    }
  }

  lemma EndsMeans(d: Desktop, e: Event, i: nat)
    ensures EndsAs(d, e, i, Succeeded) == SucceedsNow(d, e, i) && EndsAs(d, e, i, Failed) == FailsNow(d, e, i)
    ensures EndsAs(d, e, i, Dropped) == DropsNow(d, e, i)
  {
  }

  lemma BeganBecomes(d: Desktop, k: nat, i: nat)
    requires i < |d.jobs|
    ensures
      var j := d.jobs[i];
      Becomes(d, Began(k), i, if k != i || !MayBegin(d.jobs, k) then j
                              else j.(state := if j.generation != d.generation then Dropped else if d.active then Executing else Failed))
  {
    EndsMeans(d, Began(k), i);
  }

  lemma ActedBecomes(d: Desktop, k: nat, i: nat)
    requires i < |d.jobs| && (d.jobs[i].state.Executing? && d.jobs[i].generation == d.generation ==> d.active)
    ensures
      var j := d.jobs[i];
      Becomes(d, Acted(k), i, if k != i || !j.state.Executing? then j
                              else if j.generation != d.generation then j.(state := Dropped) else j.(effects := j.effects + 1))
  {
    EndsMeans(d, Acted(k), i);
  }

  lemma EndedBecomes(d: Desktop, k: nat, threw: bool, i: nat)
    requires i < |d.jobs| && (d.jobs[i].state.Executing? && d.jobs[i].generation == d.generation ==> d.active)
    ensures
      var j := d.jobs[i];
      Becomes(d, Ended(k, threw), i, if k != i || !j.state.Executing? then j
                                     else j.(state := if j.generation != d.generation then Dropped else if threw then Failed else Succeeded))
  {
    EndsMeans(d, Ended(k, threw), i);
  }

  lemma BeganIs(d: Desktop, k: nat)
    requires k < |d.jobs|
    ensures
      var j, q := d.jobs[k], JobBegins(d, k);
      q.jobs == d.jobs[k := j.(state := if j.generation != d.generation then Dropped else if d.active then Executing else Failed)]
  {
  }

  lemma ActedIs(d: Desktop, k: nat)
    requires k < |d.jobs|
    ensures
      var j, q := d.jobs[k], JobActs(d, k);
      q.jobs == d.jobs[k := if j.generation != d.generation then j.(state := Dropped)
                            else if d.active then j.(effects := j.effects + 1) else j.(state := Failed)]
  {
  }

  lemma EndedIs(d: Desktop, k: nat, threw: bool)
    requires k < |d.jobs|
    ensures
      var j, q := d.jobs[k], JobEnds(d, k, threw);
      q.jobs == d.jobs[k := j.(state := if j.generation != d.generation then Dropped else if threw || !d.active then Failed else Succeeded)]
  {
  }

  /** Nothing but the queue's own steps changes a job that was accepted. */
  lemma OthersKeepJobs(d: Desktop, e: Event)
    requires !OfJobs(e)
    ensures d.jobs <= Step(d, e).jobs
  {
    hide LinkStep, PairStep, UserStep, DesktopReads;
    if OfLink(e) { LinkKeepsJobs(d, e); }
    else if OfPairing(e) { PairKeepsJobs(d, e); }
    else if e.FrameArrives? { if d.link.Some? && d.link.value.down != [] { ReadKeepsJobs(d, e.urlOk, e.hostOk); } }
    else { UserKeepsJobs(d, e); }
  }

  lemma LinkKeepsJobs(d: Desktop, e: Event)
    ensures LinkStep(d, e).jobs == d.jobs
  {
    hide Moved, LinkUp;
    assert LinkUp(d).jobs == d.jobs by { LinkUpKeepsJobs(d); }
  }

  lemma LinkUpKeepsJobs(d: Desktop)
    ensures LinkUp(d).jobs == d.jobs
  {
  }

  lemma StoppingKeepsJobs(d: Desktop, block: bool)
    ensures StopAll(d, block).jobs == Dispose(d, block).jobs == Shutdown(d).jobs == ReleaseControl(d).jobs == StartHost(d).jobs == d.jobs
    ensures StartNext(d, block).jobs == d.jobs
  {
    hide Announced;
  }

  lemma PairKeepsJobs(d: Desktop, e: Event)
    ensures PairStep(d, e).jobs == d.jobs
  {
    hide PairStarts, PairAnswered, PairSettles;
    match e {
      case PairRequested(expected, automatic, approved) => RequestKeepsJobs(d, expected, automatic, approved);
      case DialogAnswered(allow) => if d.pairing.Asking? { AnswerKeepsJobs(d, allow); }
      case PairingSettled(connected, hostOk) => if d.pairing.Connecting? { SettledKeepsJobs(d, connected, hostOk); }
      case _ =>
    }
  }

  lemma RequestKeepsJobs(d: Desktop, expected: Option<nat>, automatic: bool, approved: bool)
    ensures PairStarts(d, expected, automatic, approved).jobs == d.jobs
  {
    hide Dispose;
    StoppingKeepsJobs(d, false);
  }

  lemma AnswerKeepsJobs(d: Desktop, allow: bool)
    requires d.pairing.Asking?
    ensures PairAnswered(d, allow).jobs == d.jobs
  {
  }

  lemma SettledKeepsJobs(d: Desktop, connected: bool, hostOk: bool)
    requires d.pairing.Connecting?
    ensures PairSettles(d, connected, hostOk).jobs == d.jobs
  {
    hide Dispose, StartHost;
    StoppingKeepsJobs(d.(pairing := Idle), false);
  }

  lemma ReadKeepsJobs(d: Desktop, urlOk: bool, hostOk: bool)
    requires d.link.Some? && d.link.value.down != []
    ensures d.jobs <= DesktopReads(d, urlOk, hostOk).jobs
  {
    hide Receive, OnReady, StopAll;
    var l := d.link.value;
    var r := d.(link := Some(l.(down := l.down[1..])));
    match l.down[0] {
      case Ready => ReadyKeepsJobs(r);
      case Refusal => StoppingKeepsJobs(r, true);
      case Cmd(c) => ReceiveKeepsJobs(r, c, urlOk, hostOk);
    }
  }

  lemma ReadyKeepsJobs(d: Desktop)
    requires d.link.Some?
    ensures OnReady(d).jobs == d.jobs
  {
    hide Announced, Repeating;
  }

  lemma ReceiveKeepsJobs(d: Desktop, c: Command, urlOk: bool, hostOk: bool)
    ensures d.jobs <= Receive(d, c, urlOk, hostOk).jobs
  {
    hide ReleaseControl, StartNext, TakeBack, Passes;
    StoppingKeepsJobs(d, false);
    TakenBack(d);
    StoppingKeepsJobs(TakeBack(d), true);
    StoppingKeepsJobs(TakeBack(d), false);
  }

  lemma UserKeepsJobs(d: Desktop, e: Event)
    ensures UserStep(d, e).jobs == d.jobs
  {
    hide StopAll, Dispose, Shutdown, ReleaseControl, StartNext, TabClosedSent;
    StoppingKeepsJobs(d, true);
    StoppingKeepsJobs(d, false);
  }

  // ---------------------------------------------------------------- whole runs

  /** No event of the run changes control. */
  ghost predicate Undisturbed(d: Desktop, es: seq<Event>)
    decreases |es|
  {
    es == [] || (!ChangesControl(d, es[0]) && Undisturbed(Step(d, es[0]), es[1..]))
  }

  lemma {:induction false} UndisturbedMeans(d: Desktop, es: seq<Event>)
    requires Inv(d)
    ensures d.generation <= Exec(d, es).generation
    ensures Undisturbed(d, es) <==> Exec(d, es).generation == d.generation
    decreases |es|
  {
    hide Inv, Step, ChangesControl;
    if es != [] {
      StepKeeps(d, es[0]);
      GenerationCountsChanges(d, es[0]);
      UndisturbedMeans(Step(d, es[0]), es[1..]);
    }
  }

  /** In this run, the closure of job `i` ended at `n`, as `how`. */
  ghost predicate EndedAt(d: Desktop, es: seq<Event>, i: nat, n: nat, how: JobState) {
    n < |es| && EndsAs(Exec(d, es[..n]), es[n], i, how)
  }

  ghost predicate EndedIn(d: Desktop, es: seq<Event>, i: nat, how: JobState) {
    exists n: nat :: EndedAt(d, es, i, n, how)
  }

  /** A job is over in a way exactly if its closure ended that way. */
  lemma {:induction false} JobRunIs(d: Desktop, es: seq<Event>, i: nat, how: JobState)
    requires Inv(d) && i < |d.jobs| && !Over(d.jobs[i].state) && Over(how)
    ensures
      var q := Exec(d, es);
      && Inv(q) && i < |q.jobs| && q.jobs[i].generation == d.jobs[i].generation
      && (q.jobs[i].state == how <==> EndedIn(d, es, i, how))
    decreases |es|
  {
    hide Inv, Exec, Step, EndsAs, EndedIn, Becomes;
    if es == [] {
      EmptyRun(d, i, how);
    } else {
      var before, e := es[..|es| - 1], es[|es| - 1];
      var b := Exec(d, before);
      JobRunIs(d, before, i, how);
      assert before + [e] == es;
      ExecAppend(d, before, [e]);
      ExecOne(b, e);
      StepKeeps(b, e);
      JobStepIs(b, e, i);
      OverOnce(b, e, i, Step(b, e).jobs[i], how);
      OneMoreEvent(d, before, e, i, how);
    }
  }

  lemma OverOnce(d: Desktop, e: Event, i: nat, later: Job, how: JobState)
    requires i < |d.jobs| && Becomes(d, e, i, later) && Over(how)
    ensures later.generation == d.jobs[i].generation && (later.state == how <==> d.jobs[i].state == how || EndsAs(d, e, i, how))
  {
    hide SucceedsNow, FailsNow, DropsNow;
    if exists x: JobState :: EndsAs(d, e, i, x) {
      var x: JobState :| EndsAs(d, e, i, x);
    }
  }

  lemma EmptyRun(d: Desktop, i: nat, how: JobState)
    ensures Exec(d, []) == d && !EndedIn(d, [], i, how)
  {
  }

  lemma OneMoreEvent(d: Desktop, es: seq<Event>, e: Event, i: nat, how: JobState)
    ensures EndedIn(d, es + [e], i, how) <==> EndedIn(d, es, i, how) || EndsAs(Exec(d, es), e, i, how)
  {
    hide Exec, EndsAs;
    var all := es + [e];
    assert all[..|es|] == es;
    if EndedIn(d, all, i, how) {
      var n: nat :| EndedAt(d, all, i, n, how);
      if n < |es| {
        assert all[..n] == es[..n];
        assert EndedAt(d, es, i, n, how);
      }
    }
    if EndedIn(d, es, i, how) {
      var n: nat :| EndedAt(d, es, i, n, how);
      assert all[..n] == es[..n];
      assert EndedAt(d, all, i, n, how);
    }
    if EndsAs(Exec(d, es), e, i, how) { assert EndedAt(d, all, i, |es|, how); }
  }

  /** The run up to `n` changed no control, and then the closure of job `i` ended without an error. */
  ghost predicate EndedWell(d: Desktop, es: seq<Event>, i: nat, n: nat) {
    && n < |es| && es[n] == Ended(i, false) && Undisturbed(d, es[..n])
    && i < |Exec(d, es[..n]).jobs| && Exec(d, es[..n]).jobs[i].state.Executing?
  }

  /** The run up to `n` changed no control, and then it threw, or its turn came while control was not active. */
  ghost predicate EndedBadly(d: Desktop, es: seq<Event>, i: nat, n: nat) {
    && n < |es| && Undisturbed(d, es[..n]) && i < |Exec(d, es[..n]).jobs|
    && var b := Exec(d, es[..n]);
       (es[n] == Ended(i, true) && b.jobs[i].state.Executing?) || (es[n] == Began(i) && MayBegin(b.jobs, i) && !b.active)
  }

  /**
   * What the user is told of a command.  From its acceptance on, through any run: it is published as ok if
   * and only if its closure ended without an error before any change of control, and as failed if and
   * only if, before any change of control, it threw or its turn came while control was not active.
   * After a change of control it ends without a word.
   */
  lemma PublishedExactlyWhen(d: Desktop, es: seq<Event>, i: nat)
    requires Inv(d) && i < |d.jobs| && !Over(d.jobs[i].state) && d.jobs[i].generation == d.generation
    ensures
      var q := Exec(d, es);
      && i < |q.jobs|
      && (q.jobs[i].state.Succeeded? <==> exists n: nat :: EndedWell(d, es, i, n))
      && (q.jobs[i].state.Failed? <==> exists n: nat :: EndedBadly(d, es, i, n))
  {
    hide Inv, Exec, Step, EndsAs, EndedWell, EndedBadly, EndedAt;
    JobRunIs(d, es, i, Succeeded);
    JobRunIs(d, es, i, Failed);
    forall n: nat ensures EndedWell(d, es, i, n) <==> EndedAt(d, es, i, n, Succeeded) { WellMeans(d, es, i, n); }
    forall n: nat ensures EndedBadly(d, es, i, n) <==> EndedAt(d, es, i, n, Failed) { BadlyMeans(d, es, i, n); }
  }

  lemma WellMeans(d: Desktop, es: seq<Event>, i: nat, n: nat)
    requires Inv(d) && i < |d.jobs| && !Over(d.jobs[i].state) && d.jobs[i].generation == d.generation
    ensures EndedWell(d, es, i, n) <==> EndedAt(d, es, i, n, Succeeded)
  {
    hide Inv, Exec, Undisturbed;
    if n < |es| {
      JobRunIs(d, es[..n], i, Succeeded);
      UndisturbedMeans(d, es[..n]);
    }
  }

  lemma BadlyMeans(d: Desktop, es: seq<Event>, i: nat, n: nat)
    requires Inv(d) && i < |d.jobs| && !Over(d.jobs[i].state) && d.jobs[i].generation == d.generation
    ensures EndedBadly(d, es, i, n) <==> EndedAt(d, es, i, n, Failed)
  {
    hide Inv, Exec, Undisturbed, MayBegin;
    if n < |es| {
      JobRunIs(d, es[..n], i, Failed);
      UndisturbedMeans(d, es[..n]);
    }
  }

  // ---------------------------------------------------------------- what is accepted

  /** Nothing of the command is left, and nothing was started for it. */
  ghost predicate Ignored(d: Desktop, q: Desktop) {
    q.jobs == d.jobs && q.generation == d.generation && q.hosts == d.hosts && q.commandEpoch == d.commandEpoch
  }

  /** The command is the newest job, of the current generation, and a host that was not the executor's is taken back. */
  ghost predicate Accepted(d: Desktop, q: Desktop, c: Command, started: nat) {
    && q.jobs == d.jobs + [Job(c, q.generation, d.lane, Queued, 0)]
    && q.generation == d.generation + started && q.hosts == d.hosts + started
    && (d.host || started == 1 ==> q.host && q.active && !q.released && q.executor == Some(q.generation))
    && (started == 1 ==> !q.automaticBlocked)
  }

  /**
   * `receive`, exactly: a command of another epoch is ignored; Stop takes control and leaves the user a
   * host that lives; a command that needs a host gets one, unless its URL is refused or no host can be
   * made; and every other is queued.
   */
  lemma ReceivedExactlyWhen(d: Desktop, urlOk: bool, hostOk: bool)
    requires Inv(d) && d.link.Some? && d.link.value.down != [] && d.link.value.down[0].Cmd?
    ensures
      var c := d.link.value.down[0].command;
      var q := Step(d, FrameArrives(urlOk, hostOk));
      if !Passes(d, c) then Ignored(d, q)
      else if c.op == Stop then Fenced(d, q) && q.host == d.host && q.client == d.client
      else if !NeedsHost(d, c) then Accepted(d, q, c, 0)
      else if StartsHost(c.op) && !urlOk then Ignored(d, q)
      else if !hostOk then q.jobs == d.jobs && q.hosts == d.hosts && !q.active && q.generation == d.generation + 1
      else Accepted(d, q, c, 1)
  {
    var c := d.link.value.down[0].command;
    var r := d.(link := Some(d.link.value.(down := d.link.value.down[1..])));
    hide Inv, Receive, Fenced, Ignored, Accepted, NeedsHost;
    ExecutorIs(d);
    if Passes(d, c) && c.op == Stop {
      StopFencesEverything(d, FrameArrives(urlOk, hostOk));
      StopReceived(r, c, urlOk, hostOk);
    } else {
      ReceiveMeans(r, c, urlOk, hostOk);
      SameAccepted(d, r, Receive(r, c, urlOk, hostOk), c);
    }
  }

  lemma ExecutorIs(d: Desktop)
    requires Inv(d)
    ensures d.active == d.host && d.executor == if d.active && !d.released then Some(d.generation) else None
  {
    hide LinkOk, JobsOk;
  }

  lemma StopReceived(d: Desktop, c: Command, urlOk: bool, hostOk: bool)
    requires Passes(d, c) && c.op == Stop
    ensures var q := Receive(d, c, urlOk, hostOk); q.host == d.host && q.client == d.client
  {
    hide Announced;
  }

  lemma ReceiveMeans(d: Desktop, c: Command, urlOk: bool, hostOk: bool)
    requires d.active == d.host && d.executor == (if d.active && !d.released then Some(d.generation) else None) && !(Passes(d, c) && c.op == Stop)
    ensures
      var q := Receive(d, c, urlOk, hostOk);
      if !Passes(d, c) then Ignored(d, q)
      else if !NeedsHost(d, c) then Accepted(d, q, c, 0)
      else if StartsHost(c.op) && !urlOk then Ignored(d, q)
      else if !hostOk then q.jobs == d.jobs && q.hosts == d.hosts && !q.active && q.generation == d.generation + 1
      else Accepted(d, q, c, 1)
  {
  }

  lemma SameAccepted(d: Desktop, r: Desktop, q: Desktop, c: Command)
    requires r == d.(link := r.link)
    ensures Ignored(r, q) == Ignored(d, q) && Accepted(r, q, c, 0) == Accepted(d, q, c, 0) && Accepted(r, q, c, 1) == Accepted(d, q, c, 1)
    ensures Passes(r, c) == Passes(d, c) && NeedsHost(r, c) == NeedsHost(d, c)
  {
  }

  // ---------------------------------------------------------------- who starts, and who pairs

  /** `pair` goes ahead exactly when it may; then everything is stopped, the block is lifted, and a dialog asks unless the user had approved. */
  lemma PairsExactlyWhen(d: Desktop, expected: Option<nat>, automatic: bool, approved: bool)
    ensures
      var q := Step(d, PairRequested(expected, automatic, approved));
      if MayPair(d, expected, automatic)
      then
        && q.pairing == (if approved then Connecting(q.generation, automatic) else Asking(q.generation, automatic))
        && q.client == approved && !q.host && !q.active && !q.partition && q.link.None? && q.commandEpoch.None? && !q.automaticBlocked
      else q == d
  {
    hide LinkStep, UserStep, JobStep, DesktopReads;
  }

  /** The dialog's answer counts only if nothing changed control meanwhile: a refusal blocks what is automatic, a consent connects. */
  lemma AnswersExactlyWhen(d: Desktop, allow: bool)
    requires d.pairing.Asking?
    ensures
      var q := Step(d, DialogAnswered(allow));
      if d.pairing.generation != d.generation then q == d.(pairing := Idle)
      else if !allow then q == d.(pairing := Idle, automaticBlocked := true)
      else q.pairing == Connecting(d.pairing.generation, d.pairing.automatic) && q.client && q.link.None? && q.automaticBlocked == d.automaticBlocked
  {
    hide LinkStep, UserStep, JobStep, DesktopReads;
  }

  /** A settled pairing starts a host only if the user asked for it; an automatic one arms the relay and starts nothing. */
  lemma SettlesExactlyWhen(d: Desktop, connected: bool, hostOk: bool)
    requires Inv(d) && d.pairing.Connecting?
    ensures
      var q := Step(d, PairingSettled(connected, hostOk));
      && q.pairing.Idle?
      && (if d.pairing.generation != d.generation then q == d.(pairing := Idle)
          else if !connected || (!d.pairing.automatic && !hostOk) then !q.client && !q.host && !q.partition && !q.automaticBlocked
          else q.partition && !q.automaticBlocked && q.host == !d.pairing.automatic && q.hosts == d.hosts + if d.pairing.automatic then 0 else 1)
  {
    hide LinkStep, UserStep, JobStep, DesktopReads, LinkOk, JobsOk;
  }

  /** `show` starts a host exactly if none lives, the pairing is armed and the relay is ready, and one can be made. */
  lemma ShowsExactlyWhen(d: Desktop, hostOk: bool)
    ensures
      var q := Step(d, ShowPressed(hostOk));
      var due := !d.host && d.partition && d.client && d.link.Some? && d.link.value.ready;
      && q.hosts == d.hosts + (if due && hostOk then 1 else 0) && q.jobs == d.jobs
      && (due && hostOk ==> q.host && q.active && q.executor == Some(q.generation) && !q.automaticBlocked)
      && (!due ==> q == d)
  {
    hide LinkStep, PairStep, JobStep, DesktopReads;
  }

  /** The executor's tab was closed: the relay is told on an open socket, and on no other. */
  lemma TabClosedIsSent(d: Desktop)
    ensures
      var q := Step(d, AttachedTabClosed);
      if d.host && d.executor.Some? && d.link.Some? && !d.link.value.stage.Opening?
      then q == d.(link := Some(d.link.value.(up := d.link.value.up + [None])))
      else q == d
  {
    hide LinkStep, PairStep, JobStep, DesktopReads;
  }
}
