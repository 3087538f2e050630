/**
 * `probe_plan` over plan trees, and the argument that no executor can tell: whatever expressions
 * it chooses to evaluate next, depending on everything it has seen so far, the rewritten plan
 * shows it the same values and the probe has counted what it evaluated.
 */
module ProbePlans {
  import opened Options
  import opened ProbeExpressions

  /** The plan nodes `probe_plan` tells apart, by what it does with their own fields. */
  datatype Kind =
    | Rewriting        // REWRITE of the node's expression fields, or nothing to rewrite
    | IndexKeys        // index quals are left alone and counted
    | JoinKeys         // join quals are rewritten, hash or merge clauses are left alone and counted
    | Unsupported      // `default`

  /** `fields` are the expressions a REWRITE would replace; `children` the plans a CHILDREN or subplan field holds. */
  datatype Plan = NoPlan | Plan(kind: Kind, targetlist: seq<Expr>, qual: seq<Expr>, fields: seq<Expr>, keys: seq<Expr>,
                                children: seq<Plan>, lefttree: Plan, righttree: Plan)

  /** `unobserved_index_quals`, `unobserved_join_keys` and `unsupported_plans`. */
  datatype Missed = Missed(indexQuals: nat, joinKeys: nat, unsupported: nat)

  function PlusMissed(a: Missed, b: Missed): Missed {
    Missed(a.indexQuals + b.indexQuals, a.joinKeys + b.joinKeys, a.unsupported + b.unsupported)
  }

  /** How often `probe_planned_expression` meets a hashed subplan, whose test expression it does not enter. */
  function HashedSubPlans(e: Expr): nat
    decreases e, 1
  {
    match e
    case Leaf(_) => 0
    case Op(_, _, args) => HashedIn(args)
    case And(args) => HashedIn(args)
    case Or(args) => HashedIn(args)
    case Coalesce(args) => HashedIn(args)
    case Case(args) => HashedIn(args)
    case SimpleCase(arg, args) => HashedSubPlans(arg) + HashedIn(args)
    case CaseTest => 0
    case Func(_, args) => HashedIn(args)
    case SubPlan(_, _, useHashTable, testexpr, args) => HashedIn(args) + if useHashTable then 1 else HashedSubPlans(testexpr)
  }

  function HashedIn(es: seq<Expr>): nat
    decreases es
  {
    if es == [] then 0 else HashedSubPlans(es[0]) + HashedIn(es[1..])
  }

  /** What one node leaves uncounted. */
  function OwnMissed(plan: Plan): Missed
    requires plan.Plan?
  {
    var own := plan.kind != Unsupported;
    var hashed := HashedIn(plan.targetlist) + HashedIn(plan.qual) + if own then HashedIn(plan.fields) else 0;
    Missed(if plan.kind.IndexKeys? then |plan.keys| else 0, hashed + if plan.kind.JoinKeys? then |plan.keys| else 0, if own then 0 else 1)
  }

  /** The rewritten plan and what it leaves uncounted. */
  function ProbePlan(p: Probe, plan: Plan): (Plan, Missed)
    decreases plan, 1
  {
    match plan
    case NoPlan => (NoPlan, Missed(0, 0, 0))
    case Plan(kind, targetlist, qual, fields, keys, children, lefttree, righttree) =>
      var own := kind != Unsupported;
      var (children', missed) := if own then ProbeAll(p, children) else (children, Missed(0, 0, 0));
      var (left', missedLeft) := ProbePlan(p, lefttree);
      var (right', missedRight) := ProbePlan(p, righttree);
      (Plan(kind, PlannedAll(p, targetlist), PlannedAll(p, qual), if own then PlannedAll(p, fields) else fields, keys,
            children', left', right'),
       PlusMissed(PlusMissed(OwnMissed(plan), missed), PlusMissed(missedLeft, missedRight)))
  }

  function ProbeAll(p: Probe, plans: seq<Plan>): (seq<Plan>, Missed)
    decreases plans
  {
    if plans == [] then ([], Missed(0, 0, 0))
    else
      var (plan', missed) := ProbePlan(p, plans[0]);
      var (rest, missedRest) := ProbeAll(p, plans[1..]);
      ([plan'] + rest, PlusMissed(missed, missedRest))
  }

  // ---------------------------------------------------------------- which expressions are reached

  /** An expression of a plan: rewritten, or kept exactly as the planner made it. */
  datatype Slot = Slot(expr: Expr, rewritten: bool)

  function Mark(es: seq<Expr>, rewritten: bool): (r: seq<Slot>)
    ensures |r| == |es| && forall i | 0 <= i < |es| :: r[i] == Slot(es[i], rewritten)
  {
    seq(|es|, i requires 0 <= i < |es| => Slot(es[i], rewritten))
  }

  /** Every expression of a plan in a fixed order, with whether `probe_plan` reaches it. */
  function Slots(plan: Plan, reached: bool): seq<Slot>
    decreases plan, 1
  {
    match plan
    case NoPlan => []
    case Plan(kind, targetlist, qual, fields, keys, children, lefttree, righttree) =>
      var own := reached && kind != Unsupported;
      Mark(targetlist, reached) + Mark(qual, reached) + Mark(fields, own) + Mark(keys, false)
      + SlotsAll(children, own) + Slots(lefttree, reached) + Slots(righttree, reached)
  }

  function SlotsAll(plans: seq<Plan>, reached: bool): seq<Slot>
    decreases plans
  {
    if plans == [] then [] else Slots(plans[0], reached) + SlotsAll(plans[1..], reached)
  }

  /** What the rewriting does to one slot. */
  function Probed(p: Probe, s: Slot): Slot {
    if s.rewritten then s.(expr := Planned(p, s.expr)) else s
  }

  /** `b` is `a` with exactly the reached expressions rewritten. */
  ghost predicate Pointwise(p: Probe, a: seq<Slot>, b: seq<Slot>) {
    |a| == |b| && forall i | 0 <= i < |a| :: b[i] == Probed(p, a[i])
  }

  lemma PointwiseConcat(p: Probe, a: seq<Slot>, b: seq<Slot>, c: seq<Slot>, d: seq<Slot>)
    requires Pointwise(p, a, b) && Pointwise(p, c, d)
    ensures Pointwise(p, a + c, b + d)
  {
    hide Probed;
  }

  lemma MarkProbed(p: Probe, es: seq<Expr>, rewritten: bool)
    ensures Pointwise(p, Mark(es, rewritten), Mark(if rewritten then PlannedAll(p, es) else es, rewritten))
  {
    hide Planned, PlannedAll;
  }

  lemma {:induction false} NothingReached(plan: Plan)
    ensures forall s <- Slots(plan, false) :: !s.rewritten
    decreases plan, 1
  {
    if plan.Plan? {
      NothingReachedAll(plan.children);
      NothingReached(plan.lefttree);
      NothingReached(plan.righttree);
    }
  }

  lemma {:induction false} NothingReachedAll(plans: seq<Plan>)
    ensures forall s <- SlotsAll(plans, false) :: !s.rewritten
    decreases plans
  {
    if plans != [] {
      NothingReached(plans[0]);
      NothingReachedAll(plans[1..]);
    }
  }

  /** `probe_plan` rewrites every expression it reaches and leaves keys and unsupported nodes' fields exactly alone. */
  lemma {:induction false} ProbePlanRewritesSlots(p: Probe, plan: Plan)
    ensures Pointwise(p, Slots(plan, true), Slots(ProbePlan(p, plan).0, true))
    decreases plan, 1
  {
    hide PlannedAll, Planned, Mark, Pointwise, Probed;
    match plan {
      case NoPlan => EmptyPointwise(p);
      case Plan(kind, targetlist, qual, fields, keys, children, lefttree, righttree) =>
        var own := kind != Unsupported;
        MarkProbed(p, targetlist, true);
        MarkProbed(p, qual, true);
        MarkProbed(p, fields, own);
        MarkProbed(p, keys, false);
        if own { ProbeAllRewritesSlots(p, children); } else { UnreachedAll(p, children); }
        ProbePlanRewritesSlots(p, lefttree);
        ProbePlanRewritesSlots(p, righttree);
        var q := ProbePlan(p, plan).0;
        var a1, b1 := Mark(targetlist, true), Mark(q.targetlist, true);
        var a2, b2 := a1 + Mark(qual, true), b1 + Mark(q.qual, true);
        PointwiseConcat(p, a1, b1, Mark(qual, true), Mark(q.qual, true));
        var a3, b3 := a2 + Mark(fields, own), b2 + Mark(q.fields, own);
        PointwiseConcat(p, a2, b2, Mark(fields, own), Mark(q.fields, own));
        var a4, b4 := a3 + Mark(keys, false), b3 + Mark(q.keys, false);
        PointwiseConcat(p, a3, b3, Mark(keys, false), Mark(q.keys, false));
        var a5, b5 := a4 + SlotsAll(children, own), b4 + SlotsAll(q.children, own);
        PointwiseConcat(p, a4, b4, SlotsAll(children, own), SlotsAll(q.children, own));
        var a6, b6 := a5 + Slots(lefttree, true), b5 + Slots(q.lefttree, true);
        PointwiseConcat(p, a5, b5, Slots(lefttree, true), Slots(q.lefttree, true));
        PointwiseConcat(p, a6, b6, Slots(righttree, true), Slots(q.righttree, true));
    }
  }

  lemma EmptyPointwise(p: Probe)
    ensures Pointwise(p, [], [])
  {
  }

  lemma UnreachedAll(p: Probe, plans: seq<Plan>)
    ensures Pointwise(p, SlotsAll(plans, false), SlotsAll(plans, false))
  {
    hide Planned;
    NothingReachedAll(plans);
  }

  lemma {:induction false} ProbeAllRewritesSlots(p: Probe, plans: seq<Plan>)
    ensures Pointwise(p, SlotsAll(plans, true), SlotsAll(ProbeAll(p, plans).0, true))
    decreases plans
  {
    hide Pointwise, Slots, ProbePlan;
    if plans == [] {
      EmptyPointwise(p);
    } else {
      var q := ProbeAll(p, plans).0;
      ProbePlanRewritesSlots(p, plans[0]);
      ProbeAllRewritesSlots(p, plans[1..]);
      assert q[1..] == ProbeAll(p, plans[1..]).0;
      PointwiseConcat(p, Slots(plans[0], true), Slots(q[0], true), SlotsAll(plans[1..], true), SlotsAll(q[1..], true));
    }
  }

  // ---------------------------------------------------------------- any executor

  /**
   * An executor: given the outcomes so far it stops, or evaluates one slot in some environment.
   * Slots that were not rewritten may also be read as they are (keys, unsupported fields); they are
   * the same in both plans, so the executor may depend on them freely.
   */
  datatype Choice = Stop | Evaluate(slot: nat, env: Env)
  type Executor = seq<Outcome> -> Choice

  /** What was evaluated so far, in slots `probe_plan` reached and in the others, and how much it called. */
  datatype History = History(outcomes: seq<Outcome>, reached: Tally, others: Tally, time: Time)

  function Seen(h: History, s: Slot, r: Run): History {
    History(h.outcomes + [r.outcome],
            if s.rewritten then Plus(h.reached, r.tally) else h.reached,
            if s.rewritten then h.others else Plus(h.others, r.tally),
            r.time)
  }

  /** The first `steps` evaluations. */
  function Execute(w: World, p: Probe, slots: seq<Slot>, x: Executor, h: History, steps: nat): History
    decreases steps
  {
    if steps == 0 then h
    else match x(h.outcomes)
      case Stop => h
      case Evaluate(i, env) =>
        if i >= |slots| then h
        else Execute(w, p, slots, x, Seen(h, slots[i], Eval(w, p, env, h.time, slots[i].expr)), steps - 1)
  }

  /**
   * Every executor sees the same outcomes from the rewritten plan, for as long as it runs, and
   * everything it evaluates in a reached slot has been counted exactly once.
   */
  lemma NoExecutorCanTell(w: World, p: Probe, plan: Plan, x: Executor, steps: nat)
    requires PrivateOids(p)
    ensures
      var start := History([], ZERO, ZERO, 0);
      var before := Execute(w, p, Slots(plan, true), x, start, steps);
      var after := Execute(w, p, Slots(ProbePlan(p, plan).0, true), x, start, steps);
      after == History(before.outcomes, Counted(before.reached), before.others, before.time)
  {
    hide Execute, Slots, ProbePlan, Pointwise, Counted;
    CountedNothing(ZERO);
    ProbePlanRewritesSlots(p, plan);
    SameHistory(w, p, Slots(plan, true), Slots(ProbePlan(p, plan).0, true), x, History([], ZERO, ZERO, 0), steps);
  }

  lemma {:induction false} SameHistory(w: World, p: Probe, a: seq<Slot>, b: seq<Slot>, x: Executor, h: History, steps: nat)
    requires PrivateOids(p) && Pointwise(p, a, b)
    ensures
      var before := Execute(w, p, a, x, h, steps);
      Execute(w, p, b, x, History(h.outcomes, Counted(h.reached), h.others, h.time), steps)
      == History(before.outcomes, Counted(before.reached), before.others, before.time)
    decreases steps
  {
    hide PrivateOids, Eval, Planned, Counted, Plus;
    if steps > 0 && x(h.outcomes).Evaluate? && x(h.outcomes).slot < |a| {
      var i, env := x(h.outcomes).slot, x(h.outcomes).env;
      var r := Eval(w, p, env, h.time, a[i].expr);
      if a[i].rewritten { PlannedPreserves(w, p, env, h.time, a[i].expr); }
      CountedPlus(h.reached, r.tally);
      SameHistory(w, p, a, b, x, Seen(h, a[i], r), steps - 1);
    }
  }

  // ---------------------------------------------------------------- what the unobserved counters mean

  /** Only scans and joins with keys have keys. */
  ghost predicate PlanOk(plan: Plan)
    decreases plan, 1
  {
    plan.Plan? ==>
      && (plan.kind.Rewriting? ==> plan.keys == [])
      && (forall c <- plan.children :: PlanOk(c)) && PlanOk(plan.lefttree) && PlanOk(plan.righttree)
  }

  ghost predicate Covered(s: Slot) {
    s.rewritten && HashedSubPlans(s.expr) == 0
  }

  ghost predicate Supported(plan: Plan)
    decreases plan, 1
  {
    plan.Plan? ==>
      plan.kind != Unsupported && (forall c <- plan.children :: Supported(c)) && Supported(plan.lefttree) && Supported(plan.righttree)
  }

  ghost predicate AllCovered(slots: seq<Slot>) {
    forall s <- slots :: Covered(s)
  }

  lemma CoveredConcat(a: seq<Slot>, b: seq<Slot>)
    ensures AllCovered(a + b) <==> AllCovered(a) && AllCovered(b)
  {
    hide Covered;
    forall s | s in a || s in b ensures s in a + b {
    }
  }

  lemma EmptyCovered()
    ensures AllCovered([])
  {
  }

  lemma OneCovered(e: Expr)
    ensures AllCovered([Slot(e, true)]) <==> HashedSubPlans(e) == 0
  {
    hide HashedSubPlans;
    assert Slot(e, true) in [Slot(e, true)];
  }

  lemma {:induction false} NoneHashed(es: seq<Expr>)
    ensures HashedIn(es) == 0 <==> AllCovered(Mark(es, true))
    decreases es
  {
    hide HashedSubPlans, AllCovered, Covered;
    if es == [] {
      EmptyCovered();
    } else {
      NoneHashed(es[1..]);
      OneCovered(es[0]);
      assert Mark(es, true) == [Slot(es[0], true)] + Mark(es[1..], true);
      CoveredConcat([Slot(es[0], true)], Mark(es[1..], true));
    }
  }

  lemma KeysNotCovered(keys: seq<Expr>)
    ensures AllCovered(Mark(keys, false)) <==> keys == []
  {
    if keys != [] {
      assert Mark(keys, false)[0] in Mark(keys, false);
    }
  }

  predicate Nothing(m: Missed) {
    m.indexQuals + m.joinKeys + m.unsupported == 0
  }

  lemma SumIsNothing(a: Missed, b: Missed)
    ensures Nothing(PlusMissed(a, b)) <==> Nothing(a) && Nothing(b)
  {
  }

  /** A node misses nothing of its own exactly when it is supported and its own expressions are covered. */
  lemma OwnMissedMeans(plan: Plan)
    requires plan.Plan? && (plan.kind.Rewriting? ==> plan.keys == [])
    ensures Nothing(OwnMissed(plan)) <==> plan.kind != Unsupported && AllCovered(OwnSlots(plan))
  {
    OwnCovered(plan);
    hide AllCovered, HashedIn, OwnSlots, Nothing;
    var m := OwnMissed(plan);
    NothingMeans(m);
    if plan.kind != Unsupported {
      NoneOfThree(HashedIn(plan.targetlist), HashedIn(plan.qual), HashedIn(plan.fields));
    }
  }

  lemma NothingMeans(m: Missed)
    ensures Nothing(m) <==> m.indexQuals <= 0 && m.joinKeys <= 0 && m.unsupported <= 0
  {
  }

  lemma NoneOfThree(a: nat, b: nat, c: nat)
    ensures a + b + c <= 0 <==> a <= 0 && b <= 0 && c <= 0
  {
  }

  lemma NothingMissed()
    ensures Nothing(Missed(0, 0, 0))
  {
  }

  /** All three counters stay zero exactly when every node is supported and every expression was fully instrumented. */
  lemma {:induction false} ZeroMissedIsFullCoverage(p: Probe, plan: Plan)
    requires PlanOk(plan)
    ensures Nothing(ProbePlan(p, plan).1) <==> Supported(plan) && AllCovered(Slots(plan, true))
    decreases plan, 1
  {
    hide PlannedAll, Mark, Covered, AllCovered, HashedIn, PlusMissed, Nothing, OwnMissed;
    match plan {
      case NoPlan => EmptyCovered(); NothingMissed();
      case Plan(kind, targetlist, qual, fields, keys, children, lefttree, righttree) =>
        ZeroMissedAll(p, children);
        ZeroMissedIsFullCoverage(p, lefttree);
        ZeroMissedIsFullCoverage(p, righttree);
        OwnMissedMeans(plan);
        var own := kind != Unsupported;
        var inside := if own then ProbeAll(p, children).1 else Missed(0, 0, 0);
        SumIsNothing(OwnMissed(plan), inside);
        SumIsNothing(ProbePlan(p, lefttree).1, ProbePlan(p, righttree).1);
        SumIsNothing(PlusMissed(OwnMissed(plan), inside), PlusMissed(ProbePlan(p, lefttree).1, ProbePlan(p, righttree).1));
        SlotsCovered(plan);
    }
  }

  lemma SlotsCovered(plan: Plan)
    requires plan.Plan?
    ensures
      AllCovered(Slots(plan, true)) <==>
        && AllCovered(OwnSlots(plan)) && AllCovered(SlotsAll(plan.children, plan.kind != Unsupported))
        && AllCovered(Slots(plan.lefttree, true)) && AllCovered(Slots(plan.righttree, true))
  {
    hide AllCovered, Mark;
    var own := plan.kind != Unsupported;
    var e := OwnSlots(plan) + SlotsAll(plan.children, own);
    CoveredConcat(OwnSlots(plan), SlotsAll(plan.children, own));
    CoveredConcat(e, Slots(plan.lefttree, true));
    CoveredConcat(e + Slots(plan.lefttree, true), Slots(plan.righttree, true));
  }

  /** A node's own expressions. */
  function OwnSlots(plan: Plan): seq<Slot>
    requires plan.Plan?
  {
    Mark(plan.targetlist, true) + Mark(plan.qual, true) + Mark(plan.fields, plan.kind != Unsupported) + Mark(plan.keys, false)
  }

  lemma OwnCovered(plan: Plan)
    requires plan.Plan?
    ensures plan.kind != Unsupported ==>
      (AllCovered(OwnSlots(plan)) <==>
         HashedIn(plan.targetlist) == 0 && HashedIn(plan.qual) == 0 && HashedIn(plan.fields) == 0 && plan.keys == [])
  {
    hide AllCovered, Mark, HashedIn;
    NoneHashed(plan.targetlist);
    NoneHashed(plan.qual);
    NoneHashed(plan.fields);
    KeysNotCovered(plan.keys);
    var a := Mark(plan.targetlist, true);
    var b := a + Mark(plan.qual, true);
    var c := b + Mark(plan.fields, plan.kind != Unsupported);
    CoveredConcat(a, Mark(plan.qual, true));
    CoveredConcat(b, Mark(plan.fields, plan.kind != Unsupported));
    CoveredConcat(c, Mark(plan.keys, false));
  }

  lemma {:induction false} ZeroMissedAll(p: Probe, plans: seq<Plan>)
    requires forall c <- plans :: PlanOk(c)
    ensures Nothing(ProbeAll(p, plans).1) <==> (forall c <- plans :: Supported(c)) && AllCovered(SlotsAll(plans, true))
    decreases plans
  {
    hide ProbePlan, Slots, Covered, AllCovered, Supported, PlanOk, PlusMissed;
    if plans == [] {
      EmptyCovered();
    } else {
      assert plans == [plans[0]] + plans[1..];
      ZeroMissedIsFullCoverage(p, plans[0]);
      ZeroMissedAll(p, plans[1..]);
      SumIsNothing(ProbePlan(p, plans[0]).1, ProbeAll(p, plans[1..]).1);
      CoveredConcat(Slots(plans[0], true), SlotsAll(plans[1..], true));
    }
  }
}
