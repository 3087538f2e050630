/** Nobody is connected to the relay without a verified hello and a granted admission. */
module RelayAdmissions {
  import opened Options
  import opened RelayState
  import opened RelayFrames
  import opened RelayTheorems

  /** Admission registers at most the connection whose hello was waiting, with the identity it was verified for. */
  ghost predicate Connects(r: Relay, q: Relay, f: FlightId, verdict: bool) {
    || (q.conns == r.conns && NoNewHello(r.flights, q.flights))
    || (verdict && f in r.flights && r.flights[f].HelloFlight? && NoNewHello(r.flights, q.flights)
        && q.conns == r.conns[r.next := Conn(r.flights[f].key, r.flights[f].socket, r.flights[f].fillAllowed)])
  }

  lemma DeliverConns(r: Relay, c: ConnId, k: Key)
    ensures DeliverPendingStop(r, c, k).conns == r.conns && DeliverPendingStop(r, c, k).flights == r.flights
  {
    hide PendingOf;
  }

  lemma RegisterConns(r: Relay, s: Socket, k: Key, fillAllowed: bool, now: int)
    ensures Register(r, s, k, fillAllowed, now).conns == r.conns[r.next := Conn(k, s, fillAllowed)]
    ensures Register(r, s, k, fillAllowed, now).flights == r.flights
  {
  }

  lemma ConnectsSame(r: Relay, q: Relay, f: FlightId, verdict: bool)
    requires q.conns == r.conns && q.flights == r.flights - {f}
    ensures Connects(r, q, f, verdict)
  {
  }

  lemma ConnectsOne(r: Relay, q: Relay, f: FlightId)
    requires f in r.flights && r.flights[f].HelloFlight? && q.flights == r.flights - {f}
    requires q.conns == r.conns[r.next := Conn(r.flights[f].key, r.flights[f].socket, r.flights[f].fillAllowed)]
    ensures Connects(r, q, f, true)
  {
  }

  lemma WelcomeConns(q: Relay, s: Socket, k: Key, fillAllowed: bool, now: int)
    ensures
      var g := Register(q, s, k, fillAllowed, now);
      var d := DeliverPendingStop(SetTerminal(g, q.next, k, Some(Stopped)), q.next, k);
      && g.conns == q.conns[q.next := Conn(k, s, fillAllowed)] && g.flights == q.flights
      && d.conns == g.conns && d.flights == q.flights
  {
    hide Register, DeliverPendingStop, SetTerminal;
    RegisterConns(q, s, k, fillAllowed, now);
    var g := Register(q, s, k, fillAllowed, now);
    TerminalEpochs(g, q.next, k, Some(Stopped));
    DeliverConns(SetTerminal(g, q.next, k, Some(Stopped)), q.next, k);
  }

  lemma HelloResumeConnects(r0: Relay, f: FlightId, admitted: bool, now: int)
    requires f in r0.flights && r0.flights[f].HelloFlight?
    ensures Connects(r0, HelloResume(r0, f, admitted, now), f, admitted)
  {
    hide Connects, Disconnect, Register, DeliverPendingStop, SetTerminal;
    var HelloFlight(s, k, fillAllowed) := r0.flights[f];
    var m := r0.(flights := r0.flights - {f}, admitting := r0.admitting - {s});
    DisconnectEpochs(m, s);
    ConnectsSame(r0, m, f, admitted);
    ConnectsSame(r0, Disconnect(m, s), f, admitted);
    if admitted && s !in m.closed {
      var q := if k in m.byConnection && m.byConnection[k] in m.conns && m.conns[m.byConnection[k]].socket != s
               then Disconnect(m, m.conns[m.byConnection[k]].socket) else m;
      if k in m.byConnection && m.byConnection[k] in m.conns {
        DisconnectEpochs(m, m.conns[m.byConnection[k]].socket);
        DisconnectNext(m, m.conns[m.byConnection[k]].socket);
      }
      WelcomeConns(q, s, k, fillAllowed, now);
      ConnectsOne(r0, HelloResume(r0, f, admitted, now), f);
    }
  }

  lemma AdmissionConnects(r: Relay, f: FlightId, verdict: bool, now: int)
    ensures Connects(r, Step(r, Admitted(f, verdict, now)), f, verdict)
  {
    if f in r.flights && r.flights[f].HelloFlight? {
      hide Connects, HelloResume;
      HelloResumeConnects(r, f, verdict, now);
    }
  }

  /** In this run, `s` said hello for `k` at `i`. */
  ghost predicate SaidHello(es: seq<Event>, i: nat, s: Socket, k: Key, fillAllowed: bool) {
    i < |es| && es[i] == Hello(s, Some(k), fillAllowed)
  }

  /** The flight in which the hello at `i`, if it was accepted, waits for its admission. */
  ghost function FlightOf(es: seq<Event>, i: nat): FlightId
    requires i < |es|
  {
    Exec(EMPTY, es[..i]).next
  }

  /** The admission of the hello at `i` was granted at `j`. */
  ghost predicate Granted(es: seq<Event>, i: nat, j: nat) {
    i < j < |es| && es[j].Admitted? && es[j].verdict && es[j].flight == FlightOf(es, i)
  }

  ghost predicate Authenticated(es: seq<Event>, conn: Conn) {
    exists i: nat, j: nat :: SaidHello(es, i, conn.socket, conn.key, conn.fillAllowed) && Granted(es, i, j)
  }

  ghost predicate Greeted(es: seq<Event>, f: FlightId, h: Flight) {
    h.HelloFlight? ==> exists i: nat :: SaidHello(es, i, h.socket, h.key, h.fillAllowed) && f == FlightOf(es, i)
  }

  ghost predicate KnownPeople(es: seq<Event>, r: Relay) {
    && (forall c <- r.conns :: Authenticated(es, r.conns[c]))
    && (forall f <- r.flights :: Greeted(es, f, r.flights[f]))
  }

  lemma SameFlightOf(es: seq<Event>, e: Event, i: nat)
    requires i < |es|
    ensures FlightOf(es + [e], i) == FlightOf(es, i)
  {
    hide Exec;
    assert (es + [e])[..i] == es[..i];
  }

  lemma LongerRun(es: seq<Event>, e: Event, r: Relay)
    requires KnownPeople(es, r)
    ensures KnownPeople(es + [e], r)
  {
    hide FlightOf;
    forall c | c in r.conns ensures Authenticated(es + [e], r.conns[c]) {
      var conn := r.conns[c];
      var i: nat, j: nat :| SaidHello(es, i, conn.socket, conn.key, conn.fillAllowed) && Granted(es, i, j);
      SameFlightOf(es, e, i);
      assert SaidHello(es + [e], i, conn.socket, conn.key, conn.fillAllowed) && Granted(es + [e], i, j);
    }
    forall f | f in r.flights ensures Greeted(es + [e], f, r.flights[f]) {
      if r.flights[f].HelloFlight? {
        var h := r.flights[f];
        var i: nat :| SaidHello(es, i, h.socket, h.key, h.fillAllowed) && f == FlightOf(es, i);
        SameFlightOf(es, e, i);
        assert SaidHello(es + [e], i, h.socket, h.key, h.fillAllowed);
      }
    }
  }

  lemma HelloPeople(es: seq<Event>, r: Relay, s: Socket, identity: Option<Key>, fillAllowed: bool)
    requires KnownPeople(es, r) && r == Exec(EMPTY, es)
    ensures
      var e := Hello(s, identity, fillAllowed);
      KnownPeople(es + [e], Step(r, e))
  {
    hide Step, Exec, Authenticated, Greeted, SaysHello;
    var e := Hello(s, identity, fillAllowed);
    LongerRun(es, e, r);
    HelloEpochs(r, s, identity, fillAllowed);
    var q := Step(r, e);
    if SaysHello(r, q, s, identity, fillAllowed) {
      HelloLeaves(r, q, s, identity, fillAllowed);
      NewGreeting(es, s, identity.value, fillAllowed);
    } else {
      ForwardPeople(es + [e], r, q);
    }
  }

  lemma AdmittedPeople(es: seq<Event>, r: Relay, f: FlightId, verdict: bool, now: int)
    requires KnownPeople(es, r)
    ensures
      var e := Admitted(f, verdict, now);
      KnownPeople(es + [e], Step(r, e))
  {
    hide Step, Exec, FlightOf, Authenticated, Greeted, NoNewHello;
    var e := Admitted(f, verdict, now);
    LongerRun(es, e, r);
    AdmissionConnects(r, f, verdict, now);
    var q := Step(r, e);
    SamePeople(es + [e], r, r.(flights := q.flights));
    if q.conns != r.conns {
      NewPerson(es, f, now, r.flights[f]);
    }
  }

  lemma StepPeople(es: seq<Event>, r: Relay, e: Event)
    requires KnownPeople(es, r) && r == Exec(EMPTY, es)
    ensures KnownPeople(es + [e], Step(r, e))
  {
    hide Step, Exec, KnownPeople, Forward;
    match e {
      case Hello(s, identity, fillAllowed) => HelloPeople(es, r, s, identity, fillAllowed);
      case Admitted(f, verdict, now) => AdmittedPeople(es, r, f, verdict, now);
      case ExtensionEvent(s, kind, epoch, now) =>
        LongerRun(es, e, r);
        StoppedSetsTheEpoch(r, s, kind, epoch, now);
        SameFlights(r, Step(r, e));
        SamePeople(es + [e], r, Step(r, e));
      case _ =>
        LongerRun(es, e, r);
        HandlersSendProperFrames(r, e);
        ForwardPeople(es + [e], r, Step(r, e));
    }
  }

  lemma SameFlights(r: Relay, q: Relay)
    requires q.flights == r.flights
    ensures NoNewHello(r.flights, q.flights)
  {
  }

  lemma ForwardPeople(es: seq<Event>, r: Relay, q: Relay)
    requires KnownPeople(es, r) && Forward(r, q)
    ensures KnownPeople(es, q)
  {
    hide KnownPeople, FramesCarry, BindingsGrow, NoNewHello;
    SamePeople(es, r, q);
  }

  lemma SamePeople(es: seq<Event>, r: Relay, q: Relay)
    requires KnownPeople(es, r) && q.conns == r.conns && NoNewHello(r.flights, q.flights)
    ensures KnownPeople(es, q)
  {
    hide Authenticated;
    hide FlightOf;
    forall f | f in q.flights ensures Greeted(es, f, q.flights[f]) {
      if q.flights[f].HelloFlight? { assert Greeted(es, f, r.flights[f]); }
    }
  }

  lemma NewGreeting(es: seq<Event>, s: Socket, k: Key, fillAllowed: bool)
    ensures Greeted(es + [Hello(s, Some(k), fillAllowed)], Exec(EMPTY, es).next, HelloFlight(s, k, fillAllowed))
  {
    hide Exec;
    var all := es + [Hello(s, Some(k), fillAllowed)];
    assert all[..|es|] == es;
    assert SaidHello(all, |es|, s, k, fillAllowed) && FlightOf(all, |es|) == Exec(EMPTY, es).next;
  }

  lemma NewPerson(es: seq<Event>, f: FlightId, now: int, h: Flight)
    requires h.HelloFlight? && Greeted(es, f, h)
    ensures Authenticated(es + [Admitted(f, true, now)], Conn(h.key, h.socket, h.fillAllowed))
  {
    hide FlightOf;
    var e := Admitted(f, true, now);
    var i: nat :| SaidHello(es, i, h.socket, h.key, h.fillAllowed) && f == FlightOf(es, i);
    SameFlightOf(es, e, i);
    assert SaidHello(es + [e], i, h.socket, h.key, h.fillAllowed) && Granted(es + [e], i, |es|);
  }

  lemma {:induction false} RunPeople(es: seq<Event>)
    ensures KnownPeople(es, Exec(EMPTY, es))
    decreases |es|
  {
    if es == [] {
      assert KnownPeople([], EMPTY);
    } else {
      hide Step, KnownPeople, Exec;
      var before, e := es[..|es| - 1], es[|es| - 1];
      RunPeople(before);
      StepPeople(before, Exec(EMPTY, before), e);
      ExecAppend(EMPTY, before, e);
      assert before + [e] == es;
    }
  }

  /**
   * Nobody is connected without having been let in: every connection that ever existed said hello
   * on its own socket with an identity verified for its own key, and that hello's admission was
   * granted later.
   */
  lemma EveryConnectionWasAdmitted(es: seq<Event>)
    ensures forall c <- Exec(EMPTY, es).conns :: Authenticated(es, Exec(EMPTY, es).conns[c])
  {
    hide Exec, Authenticated, Greeted;
    RunPeople(es);
  }
}
