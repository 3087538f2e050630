/**
 * The relay and one desktop, together.  The desktop's current link is a socket of the relay's: the
 * relay reads the hello and the events that the desktop put on it, and what the relay issues for
 * the socket's connection is what arrives.  Every run of the two is a run of `Fence`, so what is
 * proved there of the relay's half of a link is proved of the relay itself.
 */
module ComposedFence {
  import opened Options
  import R = RelayState
  import I = RelayInvariants
  import H = RelayHistory
  import T = RelayTheorems
  import W = RelayWire
  import F = Fence
  import FT = FenceTheorems

  /** `socket`, `greeted` and `conn` belong to the current link: its socket, whether the relay has read its hello, and its connection. */
  datatype Both = Both(relay: R.Relay, desktop: F.Desktop, socket: R.Socket, greeted: bool, conn: R.ConnId)

  const START := Both(R.EMPTY, F.START, 0, false, 0)

  datatype Event =
    | RelayActs(event: R.Event)                                       // whatever reaches the relay otherwise
    | DesktopActs(step: F.Event)                                      // a frame read, a user's action, a job's step
    | SocketOpens(socket: R.Socket)
    | HelloRead(identity: Option<R.Key>, fillAllowed: bool)
    | EventRead(now: int)

  function OpOf(op: R.Op): F.Op {
    match op
    case Navigate => F.Navigate
    case OpenTab => F.OpenTab
    case Stop => F.Stop
    case FillReference => F.OtherOp
    case OtherOp => F.OtherOp
  }

  /** A command frame as the desktop reads it. */
  function CommandOf(s: R.Sent, seen: nat): F.Command {
    F.Command(OpOf(s.op), s.controlEpoch, s.resolver.Delivery?, seen)
  }

  function CommandsOf(frames: seq<R.Sent>, seen: nat): (r: seq<F.Frame>)
    ensures |r| == |frames|
  {
    if frames == [] then [] else CommandsOf(frames[..|frames| - 1], seen) + [F.Cmd(CommandOf(frames[|frames| - 1], seen))]
  }

  /** The desktop has a link that the relay may know of. */
  predicate Linked(b: Both) {
    b.desktop.link.Some? && !b.desktop.link.value.stage.Opening?
  }

  /** Only the desktop says hello and sends events on its own socket. */
  predicate SpeaksForDesktop(b: Both, e: R.Event) {
    Linked(b) && (e.Hello? || e.ExtensionEvent?) && e.socket == b.socket
  }

  /** The steps of `Fence` in which the desktop takes no part. */
  predicate RelaySide(e: F.Event) {
    e.RelayAdmitted? || e.RelayRefused? || e.RelayHandlesEvent? || e.RelayDispatches? || e.RelayDeliversStop? || e.SocketOpened?
  }

  /** The relay has moved on to `q`: the link carries what it sent on the link's socket. */
  function Carried(b: Both, q: R.Relay): Both {
    var n := b.(relay := q);
    if !Linked(b) then n
    else
      var l := b.desktop.link.value;
      if l.stage.Greeting? && W.Admits(b.relay, q, b.socket) then
        var frames := W.NewFrames(b.relay, q, b.relay.next);
        var l' := l.(stage := F.Registered, down := [F.Ready] + CommandsOf(frames, l.processed));
        n.(conn := b.relay.next, desktop := b.desktop.(link := Some(l')))
      else if l.stage.Registered? then
        var l' := l.(down := l.down + CommandsOf(W.NewFrames(b.relay, q, b.conn), l.processed));
        n.(desktop := b.desktop.(link := Some(l')))
      else n
  }

  /** The relay turns away a hello that it does not wait for: `unauthorized`, or `already authenticated`. */
  predicate Unwelcome(r: R.Relay, s: R.Socket, identity: Option<R.Key>) {
    s !in r.closed && (s in r.bySocket || s in r.admitting || identity.None?)
  }

  function ReadHello(b: Both, identity: Option<R.Key>, fillAllowed: bool): Both {
    b.(relay := R.Step(b.relay, R.Hello(b.socket, identity, fillAllowed)),
       greeted := true,
       desktop := if Unwelcome(b.relay, b.socket, identity) then F.Step(b.desktop, F.RelayRefused) else b.desktop)
  }

  /** The event in front: handled for the socket's connection, ignored once the socket is closed, or refused: `hello required`. */
  function ReadEvent(b: Both, epoch: Option<nat>, now: int): Both {
    if b.socket in b.relay.closed then b
    else if R.Receiver(b.relay, b.socket).None? then b.(desktop := F.Step(b.desktop, F.RelayRefused))
    else
      b.(relay := R.Step(b.relay, R.ExtensionEvent(b.socket, if epoch.Some? then R.EvStopped else R.EvTabClosed, epoch, now)),
         desktop := F.Step(b.desktop, F.RelayHandlesEvent))
  }

  function Step(b: Both, e: Event): Both {
    match e
    case RelayActs(event) => if SpeaksForDesktop(b, event) then b else Carried(b, R.Step(b.relay, event))
    case DesktopActs(event) => if RelaySide(event) then b else b.(desktop := F.Step(b.desktop, event))
    case SocketOpens(s) =>
      if b.desktop.link.Some? && b.desktop.link.value.stage.Opening? && s !in b.relay.bySocket
      then b.(desktop := F.Step(b.desktop, F.SocketOpened), socket := s, greeted := false) else b
    case HelloRead(identity, fillAllowed) =>
      if Linked(b) && b.desktop.link.value.stage.Greeting? && !b.greeted then ReadHello(b, identity, fillAllowed) else b
    case EventRead(now) =>
      if Linked(b) && b.greeted && !b.desktop.link.value.stage.Refused? && b.desktop.link.value.up != []
      then ReadEvent(b, b.desktop.link.value.up[0], now) else b
  }

  function Exec(b: Both, es: seq<Event>): Both
    decreases |es|
  {
    if es == [] then b else Exec(Step(b, es[0]), es[1..])
  }

  // ---------------------------------------------------------------- what holds between the two

  /** The link's side of the relay is the relay's own record of the socket. */
  ghost predicate LinkCoupled(b: Both) {
    Linked(b) ==>
      var l := b.desktop.link.value;
      && (l.stage.Greeting? ==> b.socket !in b.relay.bySocket)
      && (l.stage.Registered? ==>
            b.conn in b.relay.conns && b.relay.conns[b.conn].socket == b.socket && W.EpochOf(b.relay, b.conn) == l.relayEpoch)
  }

  ghost predicate Coupled(b: Both) {
    I.Inv(b.relay) && H.DeadClosed(b.relay) && LinkCoupled(b)
  }

  // ---------------------------------------------------------------- what is sent is what Fence lets the relay send

  function SendOf(s: R.Sent): F.Event {
    if s.resolver.Delivery? then F.RelayDeliversStop else F.RelayDispatches(OpOf(s.op))
  }

  function SendsOf(frames: seq<R.Sent>): seq<F.Event> {
    if frames == [] then [] else SendsOf(frames[..|frames| - 1]) + [SendOf(frames[|frames| - 1])]
  }

  lemma SendOne(d: F.Desktop, s: R.Sent)
    requires d.link.Some? && d.link.value.stage.Registered? && W.Owed(s, d.link.value.relayEpoch)
    ensures
      var l := d.link.value;
      F.Step(d, SendOf(s)) == d.(link := Some(l.(down := l.down + [F.Cmd(CommandOf(s, l.processed))])))
  {
    assert OpOf(R.Stop) == F.Stop;
    hide F.DesktopReads, F.UserStep, F.PairStep, F.JobStep, F.RelayReads, F.RelayAdmits, F.RelayRefuses, F.Opens, OpOf;
  }

  lemma {:induction false} Sending(d: F.Desktop, frames: seq<R.Sent>)
    requires d.link.Some? && d.link.value.stage.Registered? && W.AllOwed(frames, d.link.value.relayEpoch)
    ensures
      var l := d.link.value;
      F.Exec(d, SendsOf(frames)) == d.(link := Some(l.(down := l.down + CommandsOf(frames, l.processed))))
    decreases |frames|
  {
    hide F.Step, F.Exec, SendOf, CommandOf, W.Owed;
    var l := d.link.value;
    if frames == [] {
      Stays(d);
      assert l.down + [] == l.down;
    } else {
      var before, s := frames[..|frames| - 1], frames[|frames| - 1];
      Sending(d, before);
      assert s in frames && W.Owed(s, l.relayEpoch);
      SendingOneMore(d, SendsOf(before), CommandsOf(before, l.processed), s);
    }
  }

  lemma {:induction false} SendingOneMore(d: F.Desktop, sends: seq<F.Event>, commands: seq<F.Frame>, s: R.Sent)
    requires d.link.Some? && d.link.value.stage.Registered? && W.Owed(s, d.link.value.relayEpoch)
    requires F.Exec(d, sends) == d.(link := Some(d.link.value.(down := d.link.value.down + commands)))
    ensures
      var l := d.link.value;
      F.Exec(d, sends + [SendOf(s)]) == d.(link := Some(l.(down := l.down + (commands + [F.Cmd(CommandOf(s, l.processed))]))))
  {
    hide F.Step, F.Exec, SendOf, CommandOf, W.Owed;
    var n := F.Exec(d, sends);
    FT.ExecAppend(d, sends, [SendOf(s)]);
    FT.ExecOne(n, SendOf(s));
    SendOne(n, s);
    var x := F.Cmd(CommandOf(s, d.link.value.processed));
    assert d.link.value.down + commands + [x] == d.link.value.down + (commands + [x]);
  }

  /** What a step sends to a connection is owed to it. */
  lemma FramesOwed(r: R.Relay, e: R.Event, c: R.ConnId, epoch: Option<nat>)
    requires I.Inv(r) && W.SendsOwed(r, R.Step(r, e), c, epoch)
    ensures W.AllOwed(W.NewFrames(r, R.Step(r, e), c), epoch)
  {
    hide I.Inv, R.Step, W.Frames;
    var q := R.Step(r, e);
    W.NewIds(r, e);
    forall s | s in W.NewFrames(r, q, c) ensures W.Owed(s, epoch) {
      W.EachFrame(q.issued, c, r.next, q.next, s);
    }
  }

  // ---------------------------------------------------------------- each step is a run of Fence

  lemma RelayKeeps(r: R.Relay, e: R.Event)
    requires I.Inv(r) && H.DeadClosed(r)
    ensures I.Inv(R.Step(r, e)) && H.DeadClosed(R.Step(r, e)) && r.conns.Keys <= R.Step(r, e).conns.Keys
    ensures forall c <- r.conns :: R.Step(r, e).conns[c] == r.conns[c]
  {
    hide I.Inv, R.Step, H.DeadClosed, H.SameFrames;
    H.StepFuture(r, e);
  }

  /** The relay acts while the link is registered. */
  lemma RegisteredActs(b: Both, e: R.Event) returns (fs: seq<F.Event>)
    requires Coupled(b) && Linked(b) && b.desktop.link.value.stage.Registered? && !SpeaksForDesktop(b, e)
    ensures var n := Carried(b, R.Step(b.relay, e)); Coupled(n) && F.Exec(b.desktop, fs) == n.desktop
  {
    hide I.Inv, H.DeadClosed, R.Step, F.Exec, W.NewFrames, CommandsOf, W.EpochOf, W.AllOwed;
    var l := b.desktop.link.value;
    if W.IsEventOf(b.relay, e, b.conn) {
      OwnSocket(b, e.socket);
    }
    RelayKeeps(b.relay, e);
    W.WireStep(b.relay, e, b.conn);
    FramesOwed(b.relay, e, b.conn, l.relayEpoch);
    fs := SendsOf(W.NewFrames(b.relay, R.Step(b.relay, e), b.conn));
    Sending(b.desktop, W.NewFrames(b.relay, R.Step(b.relay, e), b.conn));
  }

  /** A frame handled for the link's connection came on the link's socket. */
  lemma OwnSocket(b: Both, s: R.Socket)
    requires I.Inv(b.relay) && R.Receiver(b.relay, s) == Some(b.conn)
    ensures b.conn in b.relay.conns && b.relay.conns[b.conn].socket == s
  {
    hide I.Inv;
    W.SocketIsRegistered(b.relay, s);
  }

  /** The relay acts while the link waits to be admitted. */
  lemma GreetingActs(b: Both, e: R.Event) returns (fs: seq<F.Event>)
    requires Coupled(b) && F.Inv(b.desktop) && Linked(b) && b.desktop.link.value.stage.Greeting? && !SpeaksForDesktop(b, e)
    ensures var n := Carried(b, R.Step(b.relay, e)); Coupled(n) && F.Exec(b.desktop, fs) == n.desktop
  {
    hide I.Inv, H.DeadClosed, R.Step, F.Exec, W.NewFrames, CommandsOf, F.Inv, W.EpochOf, W.AllOwed;
    var q := R.Step(b.relay, e);
    RelayKeeps(b.relay, e);
    if W.Admits(b.relay, q, b.socket) {
      fs := AdmittedActs(b, e);
    } else {
      W.StaysUnknown(b.relay, e, b.socket);
      fs := [];
      Stays(b.desktop);
    }
  }

  lemma Stays(d: F.Desktop)
    ensures F.Exec(d, []) == d
  {
  }

  lemma AdmittedActs(b: Both, e: R.Event) returns (fs: seq<F.Event>)
    requires Coupled(b) && F.Inv(b.desktop) && Linked(b) && b.desktop.link.value.stage.Greeting?
    requires W.Admits(b.relay, R.Step(b.relay, e), b.socket)
    ensures var n := Carried(b, R.Step(b.relay, e)); Coupled(n) && F.Exec(b.desktop, fs) == n.desktop
  {
    hide I.Inv, H.DeadClosed, R.Step, F.Exec, W.NewFrames, CommandsOf, F.Inv, W.AllOwed;
    var q := R.Step(b.relay, e);
    var c := b.relay.next;
    RelayKeeps(b.relay, e);
    W.AdmissionStep(b.relay, e, b.socket);
    FramesOwed(b.relay, e, c, None);
    Unheard(b.desktop);
    var a := F.Step(b.desktop, F.RelayAdmitted);
    var sends := SendsOf(W.NewFrames(b.relay, q, c));
    fs := [F.RelayAdmitted] + sends;
    FT.ExecAppend(b.desktop, [F.RelayAdmitted], sends);
    FT.ExecOne(b.desktop, F.RelayAdmitted);
    Sending(a, W.NewFrames(b.relay, q, c));
  }

  /** Before admission the relay has heard nothing. */
  lemma Unheard(d: F.Desktop)
    requires F.Inv(d) && d.link.Some? && d.link.value.stage.Greeting?
    ensures d.link.value.relayEpoch.None? && d.link.value.down == []
  {
    hide F.JobsOk, F.Epochs, F.Rising;
  }

  lemma RelayActsProject(b: Both, e: R.Event) returns (fs: seq<F.Event>)
    requires Coupled(b) && F.Inv(b.desktop) && !SpeaksForDesktop(b, e)
    ensures var n := Carried(b, R.Step(b.relay, e)); Coupled(n) && F.Exec(b.desktop, fs) == n.desktop
  {
    hide I.Inv, H.DeadClosed, R.Step, F.Exec, W.NewFrames, CommandsOf, F.Inv, W.Admits, W.EpochOf;
    if Linked(b) && b.desktop.link.value.stage.Registered? {
      fs := RegisteredActs(b, e);
    } else if Linked(b) && b.desktop.link.value.stage.Greeting? {
      fs := GreetingActs(b, e);
    } else {
      RelayKeeps(b.relay, e);
      fs := [];
      Stays(b.desktop);
    }
  }

  /** The relay's side of the link is as it was, or the link is gone or not open yet. */
  ghost predicate SameLinkSide(before: Option<F.Link>, after: Option<F.Link>) {
    after.Some? && !after.value.stage.Opening? ==>
      before.Some? && after.value.stage == before.value.stage && after.value.relayEpoch == before.value.relayEpoch
  }

  ghost predicate SameSide(d: F.Desktop, d': F.Desktop) {
    SameLinkSide(d.link, d'.link)
  }

  lemma ControlSide(d: F.Desktop, block: bool, hostOk: bool)
    ensures SameSide(d, F.Shutdown(d)) && SameSide(d, F.StopAll(d, block)) && SameSide(d, F.Dispose(d, block))
    ensures SameSide(d, F.ReleaseControl(d)) && SameSide(d, F.StartNext(d, hostOk)) && SameSide(d, F.StartHost(d))
  {
  }

  lemma ReceiveSide(d: F.Desktop, c: F.Command, urlOk: bool, hostOk: bool)
    ensures SameSide(d, F.Receive(d, c, urlOk, hostOk))
  {
    hide F.ReleaseControl, F.StartNext, F.Passes, SameLinkSide;
    var t := F.TakeBack(d);
    ControlSide(d, true, hostOk);
    ControlSide(t, true, hostOk);
    assert t.link == d.link;
    SameLink(d.link);
  }

  lemma SameLink(l: Option<F.Link>)
    ensures SameLinkSide(l, l)
  {
  }

  lemma ReadsSide(d: F.Desktop, urlOk: bool, hostOk: bool)
    requires d.link.Some? && d.link.value.down != []
    ensures SameSide(d, F.DesktopReads(d, urlOk, hostOk))
  {
    hide F.Receive, F.OnReady, F.StopAll;
    var l := d.link.value;
    var r := d.(link := Some(l.(down := l.down[1..])));
    match l.down[0] {
      case Ready => ReadySide(r);
      case Refusal => ControlSide(r, true, true);
      case Cmd(c) => ReceiveSide(r, c, urlOk, hostOk);
    }
  }

  lemma ReadySide(d: F.Desktop)
    requires d.link.Some?
    ensures SameSide(d, F.OnReady(d))
  {
  }

  lemma PairingSide(d: F.Desktop, e: F.Event)
    requires e.PairRequested? || e.DialogAnswered? || e.PairingSettled?
    ensures SameSide(d, F.Step(d, e))
  {
    hide F.StopAll, F.StartHost, F.Dispose, SameLinkSide, F.PairStarts, F.PairAnswered, F.PairSettles;
    SameLink(d.link);
    match e {
      case PairRequested(expected, automatic, approved) => PairStartsSide(d, expected, automatic, approved);
      case DialogAnswered(allow) => if d.pairing.Asking? { PairAnsweredSide(d, allow); }
      case PairingSettled(connected, hostOk) => if d.pairing.Connecting? { PairSettlesSide(d, connected, hostOk); }
    }
  }

  lemma PairStartsSide(d: F.Desktop, expected: Option<nat>, automatic: bool, approved: bool)
    ensures SameSide(d, F.PairStarts(d, expected, automatic, approved))
  {
    hide F.Dispose, SameLinkSide;
    SameLink(d.link);
    ControlSide(d, false, false);
  }

  lemma PairAnsweredSide(d: F.Desktop, allow: bool)
    requires d.pairing.Asking?
    ensures SameSide(d, F.PairAnswered(d, allow))
  {
    hide SameLinkSide;
    SameLink(d.link);
    NoLink(d.link);
  }

  lemma PairSettlesSide(d: F.Desktop, connected: bool, hostOk: bool)
    requires d.pairing.Connecting?
    ensures SameSide(d, F.PairSettles(d, connected, hostOk))
  {
    hide F.Dispose, F.StartHost, SameLinkSide;
    SameLink(d.link);
    ControlSide(d.(pairing := F.Idle), false, false);
  }

  lemma NoLink(l: Option<F.Link>)
    ensures SameLinkSide(l, None)
  {
  }

  lemma DesktopSteps(d: F.Desktop, e: F.Event)
    requires !RelaySide(e)
    ensures SameSide(d, F.Step(d, e))
  {
    hide F.Checks, F.Caught, F.MayBegin, F.Shutdown, F.StopAll, F.Dispose, F.ReleaseControl, F.StartNext, F.DesktopReads;
    match e {
      case FrameArrives(urlOk, hostOk) => if d.link.Some? && d.link.value.down != [] { ReadsSide(d, urlOk, hostOk); }
      case PairRequested(_, _, _) => PairingSide(d, e);
      case DialogAnswered(_) => PairingSide(d, e);
      case PairingSettled(_, _) => PairingSide(d, e);
      case ShowPressed(hostOk) => ControlSide(d, true, hostOk);
      case Disposed(preserve) => ControlSide(d, preserve, true);
      case HostClosed => ControlSide(d, false, true);
      case _ => ControlSide(d, true, true);
    }
  }

  /** A refusal ends the greeting, and otherwise changes nothing. */
  lemma RefusedStep(d: F.Desktop)
    requires d.link.Some?
    ensures
      var l := d.link.value;
      F.Step(d, F.RelayRefused) == if l.stage.Greeting? then d.(link := Some(l.(stage := F.Refused, down := [F.Refusal]))) else d
  {
  }

  lemma HandledStep(d: F.Desktop)
    requires d.link.Some? && d.link.value.stage.Registered? && d.link.value.up != []
    ensures
      var l := d.link.value;
      var l' := F.RelayReads(l);
      F.Step(d, F.RelayHandlesEvent) == d.(link := Some(l')) && l'.stage == l.stage
      && l'.relayEpoch == if l.up[0].Some? then l.up[0] else l.relayEpoch
  {
  }

  lemma HelloProjects(b: Both, identity: Option<R.Key>, fillAllowed: bool) returns (fs: seq<F.Event>)
    requires Coupled(b) && Linked(b) && b.desktop.link.value.stage.Greeting?
    ensures var n := ReadHello(b, identity, fillAllowed); Coupled(n) && F.Exec(b.desktop, fs) == n.desktop
  {
    hide I.Inv, H.DeadClosed, R.Step, F.Exec, F.Step, W.EpochOf;
    RefusedStep(b.desktop);
    var e := R.Hello(b.socket, identity, fillAllowed);
    RelayKeeps(b.relay, e);
    if W.Admits(b.relay, R.Step(b.relay, e), b.socket) {
      W.AdmissionStep(b.relay, e, b.socket);
    }
    W.StaysUnknown(b.relay, e, b.socket);
    if Unwelcome(b.relay, b.socket, identity) {
      fs := [F.RelayRefused];
      FT.ExecOne(b.desktop, F.RelayRefused);
    } else {
      fs := [];
      Stays(b.desktop);
    }
  }

  lemma EventProjects(b: Both, now: int) returns (fs: seq<F.Event>)
    requires Coupled(b) && Linked(b) && !b.desktop.link.value.stage.Refused? && b.desktop.link.value.up != []
    ensures var n := ReadEvent(b, b.desktop.link.value.up[0], now); Coupled(n) && F.Exec(b.desktop, fs) == n.desktop
  {
    hide I.Inv, H.DeadClosed, R.Step, F.Exec, F.Step, W.EpochOf, R.Receiver, F.RelayReads;
    RefusedStep(b.desktop);
    if b.socket in b.relay.closed {
      fs := [];
      Stays(b.desktop);
    } else if R.Receiver(b.relay, b.socket).None? {
      fs := [F.RelayRefused];
      FT.ExecOne(b.desktop, F.RelayRefused);
    } else {
      HandledProjects(b, b.desktop.link.value.up[0], now);
      fs := [F.RelayHandlesEvent];
      FT.ExecOne(b.desktop, F.RelayHandlesEvent);
    }
  }

  /** The relay hears a link's events only once it has registered it. */
  lemma KnownSocket(b: Both)
    requires LinkCoupled(b) && Linked(b) && R.Receiver(b.relay, b.socket).Some?
    ensures !b.desktop.link.value.stage.Greeting?
  {
    hide W.EpochOf;
  }

  /** An event that is handled is handled for the link's connection. */
  lemma HandledProjects(b: Both, epoch: Option<nat>, now: int)
    requires Coupled(b) && Linked(b) && !b.desktop.link.value.stage.Refused?
    requires b.desktop.link.value.up != [] && epoch == b.desktop.link.value.up[0]
    requires b.socket !in b.relay.closed && R.Receiver(b.relay, b.socket).Some?
    ensures Coupled(ReadEvent(b, epoch, now))
  {
    hide I.Inv, H.DeadClosed, R.Step, F.Step, W.EpochOf, F.RelayReads, R.Receiver;
    KnownSocket(b);
    var kind := if epoch.Some? then R.EvStopped else R.EvTabClosed;
    RelayKeeps(b.relay, R.ExtensionEvent(b.socket, kind, epoch, now));
    W.OneConnection(b.relay, b.socket, b.conn);
    W.EventStep(b.relay, b.socket, kind, epoch, now, b.conn);
    HandledStep(b.desktop);
  }

  /** Every step of the two is a run of `Fence`, and keeps them coupled. */
  lemma StepProjects(b: Both, e: Event) returns (fs: seq<F.Event>)
    requires Coupled(b) && F.Inv(b.desktop)
    ensures Coupled(Step(b, e)) && F.Exec(b.desktop, fs) == Step(b, e).desktop
  {
    hide I.Inv, H.DeadClosed, R.Step, F.Exec, F.Step, F.Inv, Carried, ReadHello, ReadEvent, W.EpochOf;
    Stays(b.desktop);
    fs := [];
    match e {
      case RelayActs(event) => if !SpeaksForDesktop(b, event) { fs := RelayActsProject(b, event); }
      case DesktopActs(event) =>
        if !RelaySide(event) {
          DesktopSteps(b.desktop, event);
          fs := [event];
          FT.ExecOne(b.desktop, event);
        }
      case SocketOpens(s) =>
        if b.desktop.link.Some? && b.desktop.link.value.stage.Opening? && s !in b.relay.bySocket {
          OpeningStep(b.desktop);
          fs := [F.SocketOpened];
          FT.ExecOne(b.desktop, F.SocketOpened);
        }
      case HelloRead(identity, fillAllowed) =>
        if Linked(b) && b.desktop.link.value.stage.Greeting? && !b.greeted { fs := HelloProjects(b, identity, fillAllowed); }
      case EventRead(now) =>
        if Linked(b) && b.greeted && !b.desktop.link.value.stage.Refused? && b.desktop.link.value.up != [] { fs := EventProjects(b, now); }
    }
  }

  lemma OpeningStep(d: F.Desktop)
    requires d.link.Some? && d.link.value.stage.Opening?
    ensures F.Step(d, F.SocketOpened) == d.(link := Some(d.link.value.(stage := F.Greeting)))
  {
  }

  lemma {:induction false} RunProjects(b: Both, es: seq<Event>) returns (fs: seq<F.Event>)
    requires Coupled(b) && F.Inv(b.desktop)
    ensures Coupled(Exec(b, es)) && F.Exec(b.desktop, fs) == Exec(b, es).desktop
    decreases |es|
  {
    hide Coupled, Step, F.Inv, F.Step;
    if es == [] {
      fs := [];
    } else {
      var first := StepProjects(b, es[0]);
      FT.ExecKeeps(b.desktop, first);
      var rest := RunProjects(Step(b, es[0]), es[1..]);
      fs := first + rest;
      FT.ExecAppend(b.desktop, first, rest);
    }
  }

  // ---------------------------------------------------------------- the fence of the composed system

  /**
   * Refinement: the desktop of any run of relay and desktop together is the desktop of a run of
   * `Fence`, and while its link is registered the relay's half of it is the relay's own record.
   */
  lemma ComposedRefinesFence(es: seq<Event>) returns (fs: seq<F.Event>)
    ensures Exec(START, es).desktop == F.Exec(F.START, fs) && LinkCoupled(Exec(START, es))
  {
    hide I.Mid, Step, F.Step;
    StartCoupled();
    fs := RunProjects(START, es);
  }

  lemma StartCoupled()
    ensures Coupled(START) && F.Inv(F.START)
  {
    hide I.Mid;
    T.ReachableOk([]);
  }

  /**
   * Stop across both parties: when control is taken from Brian on an open link, a dispatched command
   * that passes there later was issued by the relay after it had handled the event of that very Stop.
   */
  lemma ComposedStop(es: seq<Event>, e: F.Event, later: seq<Event>, c: F.Command)
    requires
      var b := Exec(START, es);
      var stopped := Step(b, DesktopActs(e));
      var d' := Exec(stopped, later).desktop;
      && FT.TakesControl(b.desktop, e) && Linked(b)
      && FT.SameLink(stopped.desktop, d') && FT.Arriving(d', c) && F.Passes(d', c) && !c.durable
    ensures c.seen > |Exec(START, es).desktop.link.value.announced|
  {
    hide I.Mid, Exec, F.Exec, F.Step, Coupled, F.Passes, FT.Arriving;
    StartCoupled();
    var b := Exec(START, es);
    var before := RunProjects(START, es);
    FT.ReachableOk(before);
    assert !RelaySide(e);
    var step := StepProjects(b, DesktopActs(e));
    FT.StepKeeps(b.desktop, e);
    var after := RunProjects(Step(b, DesktopActs(e)), later);
    FT.PassedAfterStopWasProcessed(before, e, after, c);
  }

  /**
   * In every run of both a queued Stop, whose frame the relay sends without an epoch, is refused for
   * as long as a link lasts on which the desktop has announced anything.
   */
  lemma ComposedDurableStop(es: seq<Event>, later: seq<Event>, c: F.Command)
    requires
      var b := Exec(START, es);
      var d' := Exec(b, later).desktop;
      FT.SameLink(b.desktop, d') && b.desktop.link.value.announced != [] && FT.Arriving(d', c) && c.durable
    ensures !F.Passes(Exec(Exec(START, es), later).desktop, c)
  {
    hide I.Mid, Exec, F.Exec, Coupled, F.Passes, FT.Arriving;
    StartCoupled();
    var before := RunProjects(START, es);
    FT.ReachableOk(before);
    var after := RunProjects(Exec(START, es), later);
    FT.DurableStopStaysRefused(before, after, c);
  }

  /** In every run of both, a desktop that was stopped announces its Stop on each new link before it reads a command there. */
  lemma ComposedReconnect(es: seq<Event>, urlOk: bool, hostOk: bool)
    requires
      var d := Exec(START, es).desktop;
      d.link.Some? && d.link.value.down != [] && d.link.value.down[0].Ready? && d.commandEpoch.Some? && F.Dormant(d)
    ensures
      var b := Exec(START, es);
      FT.FencedAfresh(b.desktop, Step(b, DesktopActs(F.FrameArrives(urlOk, hostOk))).desktop)
  {
    hide Exec, F.Exec, F.Step;
    var fs := ComposedRefinesFence(es);
    FT.DormantAnnouncesAgain(fs, urlOk, hostOk);
  }

  /** In every run of both: a dispatched command passes the desktop's test exactly if the relay had heard of the desktop's latest Stop. */
  lemma ComposedFence(es: seq<Event>, c: F.Command)
    requires FT.Arriving(Exec(START, es).desktop, c)
    ensures
      var d := Exec(START, es).desktop;
      F.Passes(d, c) <==> d.link.value.announced == [] || (!c.durable && FT.HeardTheLatest(d.link.value.announced, c.seen))
  {
    hide Exec, F.Exec;
    var fs := ComposedRefinesFence(es);
    FT.OnlyFreshCommandsPass(fs, c);
  }
}
