/**
 * What the relay does to one connection's wire: each step sends it the frames newly in `issued`, in
 * the order of their ids, and its control epoch is the last one an event on its own socket gave it.
 */
module RelayWire {
  import opened Options
  import opened RelayState
  import opened RelayInvariants
  import opened RelaySteps
  import opened RelayTheorems
  import opened RelayHistory
  import opened RelayFrames
  import opened RelayAdmissions

  /** A queued Stop without an epoch, or a dispatched command with this one. */
  predicate Owed(s: Sent, epoch: Option<nat>) {
    if s.resolver.Delivery? then s.op == Stop && s.controlEpoch.None? else s.controlEpoch == epoch
  }

  /** The frames for `c` with ids from `lo` up to `hi`, in the order of their ids. */
  function Frames(issued: map<CommandId, Sent>, c: ConnId, lo: CommandId, hi: CommandId): seq<Sent>
    decreases hi
  {
    if hi <= lo then []
    else
      Frames(issued, c, lo, hi - 1) +
      (if hi - 1 in issued && issued[hi - 1].conn == c then [issued[hi - 1]] else [])
  }

  /** What `c` was sent between two states of the relay. */
  function NewFrames(r: Relay, q: Relay, c: ConnId): seq<Sent> {
    Frames(q.issued, c, r.next, q.next)
  }

  lemma {:induction false} EachFrame(issued: map<CommandId, Sent>, c: ConnId, lo: CommandId, hi: CommandId, s: Sent)
    ensures s in Frames(issued, c, lo, hi) <==> exists id :: lo <= id < hi && id in issued && issued[id] == s && s.conn == c
    decreases hi
  {
    if hi > lo {
      EachFrame(issued, c, lo, hi - 1, s);
    }
  }

  ghost predicate AllOwed(frames: seq<Sent>, epoch: Option<nat>) {
    forall s <- frames :: Owed(s, epoch)
  }

  /** Nothing is sent but the frames of `NewFrames`: every new id lies between the two states' counters. */
  lemma NewIds(r: Relay, e: Event)
    requires Inv(r)
    ensures
      var q := Step(r, e);
      && (forall id <- r.issued :: id < r.next && id in q.issued && q.issued[id] == r.issued[id])
      && (forall id <- q.issued :: id in r.issued || r.next <= id < q.next)
      && (forall id <- q.issued :: q.issued[id].resolver.Delivery? ==> q.issued[id].op == Stop)
  {
    hide Mid, Step, SameConns, Dead;
    StepFuture(r, e);
    IssuedIds(r);
    IssuedIds(Step(r, e));
  }

  lemma IssuedIds(r: Relay)
    requires Inv(r)
    ensures forall id <- r.issued :: id < r.next && (r.issued[id].resolver.Delivery? ==> r.issued[id].op == Stop)
    ensures forall c <- r.conns :: c < r.next
  {
    hide RegistryOk, TerminalOk, PendingOk, NoStrandedOk, SettledOk, RetriesOk, FlightsOk,
         CallsOk, HoldersOk, ChainOk, LaneOk, BindingOk, OrderOk, SubmissionOrderOk, NoReturnOk, StopsOk, QuietOk;
  }

  /** The epoch of a connection, `None` until an event gave it one. */
  function EpochOf(r: Relay, c: ConnId): Option<nat> {
    Get(r.controlEpoch, c, None)
  }

  /** Frames sent in this step to `c` are owed `epoch`. */
  ghost predicate SendsOwed(r: Relay, q: Relay, c: ConnId, epoch: Option<nat>) {
    forall id <- q.issued :: id !in r.issued && q.issued[id].conn == c ==> Owed(q.issued[id], epoch)
  }

  /** The event is handled for `c`. */
  predicate IsEventOf(r: Relay, e: Event, c: ConnId) {
    e.ExtensionEvent? && Receiver(r, e.socket) == Some(c)
  }

  lemma ForwardOwes(r: Relay, q: Relay, c: ConnId)
    requires Forward(r, q) && forall id <- q.issued :: q.issued[id].resolver.Delivery? ==> q.issued[id].op == Stop
    ensures EpochOf(q, c) == EpochOf(r, c) && SendsOwed(r, q, c, EpochOf(r, c)) && q.conns == r.conns
  {
    hide BindingsGrow, NoNewHello;
  }

  /**
   * Whatever happens, except an event of the connection itself: its epoch stays, and what it is sent
   * carries that epoch, or none if it is a queued Stop.
   */
  lemma WireStep(r: Relay, e: Event, c: ConnId)
    requires Inv(r) && c in r.conns && !IsEventOf(r, e, c)
    ensures
      var q := Step(r, e);
      EpochOf(q, c) == EpochOf(r, c) && SendsOwed(r, q, c, EpochOf(r, c))
  {
    hide Inv, Step, Forward, SaysHello, Receiver;
    NewIds(r, e);
    IssuedIds(r);
    var q := Step(r, e);
    match e {
      case Hello(s, identity, fillAllowed) =>
        HelloEpochs(r, s, identity, fillAllowed);
        if Forward(r, q) { ForwardOwes(r, q, c); } else { HelloLeaves(r, q, s, identity, fillAllowed); }
      case Admitted(f, verdict, now) => AdmissionSetsNoEpoch(r, f, verdict, now);
      case ExtensionEvent(s, kind, epoch, now) => StoppedSetsTheEpoch(r, s, kind, epoch, now);
      case _ =>
        HandlersSendProperFrames(r, e);
        ForwardOwes(r, q, c);
    }
  }

  /** An event of the connection sends nothing, and sets its epoch exactly if it is a Stop with one. */
  lemma EventStep(r: Relay, s: Socket, kind: EventKind, epoch: Option<nat>, now: int, c: ConnId)
    requires Inv(r) && Receiver(r, s) == Some(c)
    ensures
      var q := Step(r, ExtensionEvent(s, kind, epoch, now));
      q.issued == r.issued && EpochOf(q, c) == if kind.EvStopped? && epoch.Some? then epoch else EpochOf(r, c)
  {
    hide Inv, Step, Receiver;
    StoppedSetsTheEpoch(r, s, kind, epoch, now);
  }

  /** In this step the socket's hello was granted: it has the connection that is new. */
  predicate Admits(r: Relay, q: Relay, s: Socket) {
    r.next !in r.conns && r.next in q.conns && q.conns[r.next].socket == s
  }

  /** A connection starts without an epoch, and all it is sent when it is admitted is a queued Stop. */
  lemma AdmissionStep(r: Relay, e: Event, s: Socket)
    requires Inv(r) && Admits(r, Step(r, e), s)
    ensures
      var q := Step(r, e);
      e.Admitted? && e.verdict && EpochOf(q, r.next).None?
      && forall id <- q.issued :: id !in r.issued ==> q.issued[id].resolver.Delivery? && Owed(q.issued[id], None)
  {
    hide Inv, Step, Forward, SaysHello, Receiver;
    NewIds(r, e);
    var q := Step(r, e);
    match e {
      case Hello(s', identity, fillAllowed) =>
        HelloEpochs(r, s', identity, fillAllowed);
        if Forward(r, q) { ForwardOwes(r, q, r.next); } else { HelloLeaves(r, q, s', identity, fillAllowed); }
      case Admitted(f, verdict, now) =>
        AdmissionSetsNoEpoch(r, f, verdict, now);
        AdmissionConnects(r, f, verdict, now);
      case ExtensionEvent(s', kind, epoch, now) => StoppedSetsTheEpoch(r, s', kind, epoch, now);
      case _ =>
        HandlersSendProperFrames(r, e);
        ForwardOwes(r, q, r.next);
    }
  }

  /** One socket has one connection at most, ever: frames of the socket are handled for no other. */
  lemma OneConnection(r: Relay, s: Socket, c: ConnId)
    requires Inv(r) && DeadClosed(r) && c in r.conns && r.conns[c].socket == s && Receiver(r, s).Some?
    ensures Receiver(r, s) == Some(c)
  {
    hide FreshOk, TerminalOk, PendingOk, NoStrandedOk, FramesOk, SettledOk, RetriesOk, FlightsOk,
         CallsOk, HoldersOk, ChainOk, LaneOk, BindingOk, OrderOk, SubmissionOrderOk, NoReturnOk, StopsOk, QuietOk;
  }

  /** In every run: a socket that ever had a connection never has another. */
  lemma SocketHasOneConnection(es: seq<Event>, s: Socket, c: ConnId)
    requires var r := Exec(EMPTY, es); c in r.conns && r.conns[c].socket == s
    ensures var r := Exec(EMPTY, es); Receiver(r, s).None? || Receiver(r, s) == Some(c)
  {
    hide Mid, Exec, SameFrames, Receiver;
    EmptyOk();
    ExecFuture(EMPTY, es);
    ReachableOk(es);
    if Receiver(Exec(EMPTY, es), s).Some? { OneConnection(Exec(EMPTY, es), s, c); }
  }

  /** A socket that has no connection gets one only by admission. */
  lemma StaysUnknown(r: Relay, e: Event, s: Socket)
    requires Inv(r) && s !in r.bySocket && !Admits(r, Step(r, e), s)
    ensures s !in Step(r, e).bySocket
  {
    hide Mid, Step, SameFrames;
    StepFuture(r, e);
    var q := Step(r, e);
    if s in q.bySocket {
      SocketIsRegistered(q, s);
      var c := q.bySocket[s];
      IssuedIds(r);
      if c in r.conns {
        Unregistered(r, s, c);
      } else {
        NewConnections(r, e);
      }
    }
  }

  lemma SocketIsRegistered(r: Relay, s: Socket)
    requires Inv(r) && s in r.bySocket
    ensures r.bySocket[s] in r.conns && r.conns[r.bySocket[s]].socket == s && Registered(r.conns, r.byConnection, r.bySocket[s])
  {
    hide FreshOk, TerminalOk, PendingOk, NoStrandedOk, FramesOk, SettledOk, RetriesOk, FlightsOk,
         CallsOk, HoldersOk, ChainOk, LaneOk, BindingOk, OrderOk, SubmissionOrderOk, NoReturnOk, StopsOk, QuietOk;
  }

  lemma Unregistered(r: Relay, s: Socket, c: ConnId)
    requires Inv(r) && s !in r.bySocket && c in r.conns && r.conns[c].socket == s
    ensures Dead(r, c)
  {
    hide FreshOk, TerminalOk, PendingOk, NoStrandedOk, FramesOk, SettledOk, RetriesOk, FlightsOk,
         CallsOk, HoldersOk, ChainOk, LaneOk, BindingOk, OrderOk, SubmissionOrderOk, NoReturnOk, StopsOk, QuietOk;
  }

  lemma NewConnections(r: Relay, e: Event)
    requires Inv(r)
    ensures forall c <- Step(r, e).conns :: c in r.conns || c == r.next
  {
    hide Inv, Step, Forward, SaysHello, Receiver, Connects;
    var q := Step(r, e);
    match e {
      case Hello(s, identity, fillAllowed) =>
        HelloEpochs(r, s, identity, fillAllowed);
        if Forward(r, q) { ForwardConns(r, q); } else { HelloLeaves(r, q, s, identity, fillAllowed); }
      case Admitted(f, verdict, now) =>
        AdmissionConnects(r, f, verdict, now);
        ConnectsConns(r, q, f, verdict);
      case ExtensionEvent(s, kind, epoch, now) => StoppedSetsTheEpoch(r, s, kind, epoch, now);
      case _ =>
        HandlersSendProperFrames(r, e);
        ForwardConns(r, q);
    }
  }

  lemma ForwardConns(r: Relay, q: Relay)
    requires Forward(r, q)
    ensures q.conns == r.conns
  {
    hide BindingsGrow, NoNewHello, FramesCarry;
  }

  lemma ConnectsConns(r: Relay, q: Relay, f: FlightId, verdict: bool)
    requires Connects(r, q, f, verdict)
    ensures forall c <- q.conns :: c in r.conns || c == r.next
  {
    hide NoNewHello;
  }
}
