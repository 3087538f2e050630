/** A Stop given while no browser is connected is kept until the browser acknowledges it. */
module RelayStops {
  import opened Options
  import opened RelayState
  import opened RelayInvariants
  import opened RelayProofs
  import opened RelaySteps
  import opened RelayTheorems
  import opened RelayHistory

  /** A queued Stop is dropped by nothing but an ok result for one of its own deliveries. */
  lemma StopSurvivesStep(r: Relay, e: Event, k: Key)
    requires Inv(r) && k in r.pendingStops && k !in Acknowledged(r, e)
    ensures k in Step(r, e).pendingStops
  {
    hide Mid, Acknowledged, Step, SameConns, SameFrames;
    StepGrows(r, e, Acknowledged(r, e));
  }

  /** A queued Stop that is gone at the end of a run was acknowledged at some point of that run. */
  lemma {:induction false} StopIsNeverLost(r: Relay, es: seq<Event>, k: Key)
    requires Inv(r) && k in r.pendingStops && k !in Exec(r, es).pendingStops
    ensures exists i :: 0 <= i < |es| && k in Acknowledged(Exec(r, es[..i]), es[i])
    decreases |es|
  {
    hide Mid, Step, Acknowledged;
    if es == [] {
      assert false;
    } else if k in Acknowledged(r, es[0]) {
      assert Exec(r, es[..0]) == r;
    } else {
      StepKeeps(r, es[0]);
      StopSurvivesStep(r, es[0], k);
      StopIsNeverLost(Step(r, es[0]), es[1..], k);
      var i :| 0 <= i < |es[1..]| && k in Acknowledged(Exec(Step(r, es[0]), es[1..][..i]), es[1..][i]);
      assert es[..i + 1][0] == es[0] && es[..i + 1][1..] == es[1..][..i];
      assert Exec(r, es[..i + 1]) == Exec(Step(r, es[0]), es[1..][..i]);
    }
  }

  /**
   * While a profile with a queued Stop is connected, exactly one delivery is outstanding with its
   * timer armed and no retry is, or exactly one retry is armed and no delivery is outstanding.
   * A connection with no queued Stop has neither.
   */
  lemma StopIsBeingDelivered(es: seq<Event>)
    ensures
      var r := Exec(EMPTY, es);
      forall k <- r.byConnection ::
        var c := r.byConnection[k];
        var deliveries := DeliveriesOf(PendingOf(r, c));
        && (forall id <- deliveries :: Lookup(r.timers, id) == Some(c))
        && |deliveries| + r.retries[c] == if k in r.pendingStops then 1 else 0
  {
    var r := Exec(EMPTY, es);
    ReachableOk(es);
    hide FreshOk, RegistryOk, TerminalOk, PendingOk, NoStrandedOk, FramesOk, SettledOk, RetriesOk, FlightsOk,
         CallsOk, HoldersOk, ChainOk, LaneOk, BindingOk, OrderOk, SubmissionOrderOk, NoReturnOk, StopsOk, QuietOk;
    forall k <- r.byConnection
      ensures
        var c := r.byConnection[k];
        var deliveries := DeliveriesOf(PendingOf(r, c));
        && (forall id <- deliveries :: Lookup(r.timers, id) == Some(c))
        && |deliveries| + r.retries[c] == if k in r.pendingStops then 1 else 0
    {
      StopFacts(r.byConnection, r.pendingStops, r.pending, r.retries, r.timers, k);
    }
  }

  lemma StopFacts(byConnection: map<Key, ConnId>, pendingStops: set<Key>, pending: PendingTable, retries: multiset<ConnId>, timers: Timers, k: Key)
    requires StopsOk(byConnection, pendingStops, {}, pending, retries) && PendingOk(pending, timers) && k in byConnection
    ensures
      var c := byConnection[k];
      var deliveries := DeliveriesOf(Get(pending, c, map[]));
      && (forall id <- deliveries :: Lookup(timers, id) == Some(c))
      && |deliveries| + retries[c] == if k in pendingStops then 1 else 0
  {
    var c := byConnection[k];
    assert StopStateOk(k in pendingStops, Get(pending, c, map[]), retries[c]);
    forall id <- DeliveriesOf(Get(pending, c, map[])) ensures Lookup(timers, id) == Some(c) {
      assert c in pending && id in pending[c];
    }
  }
}
