/** What the probe's counters count: plan nodes and expressions met by `probe_plan`, and predicates evaluated. */
module ProbeCounters {
  import opened Options
  import opened ProbeExpressions
  import opened ProbePlans

  function Total<T>(items: seq<T>, weight: T -> nat): nat {
    if items == [] then 0 else weight(items[0]) + Total(items[1..], weight)
  }

  lemma {:induction false} TotalConcat<T>(a: seq<T>, b: seq<T>, weight: T -> nat)
    ensures Total(a + b, weight) == Total(a, weight) + Total(b, weight)
  {
    if a == [] {
      assert a + b == b;
    } else {
      assert (a + b)[1..] == a[1..] + b;
      TotalConcat(a[1..], b, weight);
    }
  }

  lemma TotalOne<T>(x: T, weight: T -> nat)
    ensures Total([x], weight) == weight(x)
  {
    assert [x][1..] == [];
  }

  // ---------------------------------------------------------------- nodes

  /** The nodes `probe_plan` is called on: below an unsupported one only the left and right trees. */
  function Visited(plan: Plan): seq<Plan>
    decreases plan, 1
  {
    match plan
    case NoPlan => []
    case Plan(kind, _, _, _, _, children, lefttree, righttree) =>
      [plan] + (if kind != Unsupported then VisitedAll(children) else []) + Visited(lefttree) + Visited(righttree)
  }

  function VisitedAll(plans: seq<Plan>): seq<Plan>
    decreases plans
  {
    if plans == [] then [] else Visited(plans[0]) + VisitedAll(plans[1..])
  }

  const indexQuals: Plan -> nat := (n: Plan) => if n.Plan? && n.kind.IndexKeys? then |n.keys| else 0
  const joinKeys: Plan -> nat := (n: Plan) => if n.Plan? && n.kind.JoinKeys? then |n.keys| else 0
  const unsupported: Plan -> nat := (n: Plan) => if n.Plan? && n.kind.Unsupported? then 1 else 0

  /** A node's own expressions that are rewritten. */
  function OwnExprs(plan: Plan): seq<Expr> {
    if plan.NoPlan? then [] else plan.targetlist + plan.qual + if plan.kind != Unsupported then plan.fields else []
  }

  const hashedInOwn: Plan -> nat := (n: Plan) => HashedIn(OwnExprs(n))

  lemma {:induction false} HashedConcat(a: seq<Expr>, b: seq<Expr>)
    ensures HashedIn(a + b) == HashedIn(a) + HashedIn(b)
  {
    hide HashedSubPlans;
    if a == [] {
      assert a + b == b;
    } else {
      assert (a + b)[1..] == a[1..] + b;
      HashedConcat(a[1..], b);
    }
  }

  /** One node's share. */
  lemma OwnCounts(plan: Plan)
    requires plan.Plan?
    ensures OwnMissed(plan) == Missed(indexQuals(plan), joinKeys(plan) + hashedInOwn(plan), unsupported(plan))
  {
    HashedConcat(plan.targetlist, plan.qual);
    HashedConcat(plan.targetlist + plan.qual, if plan.kind != Unsupported then plan.fields else []);
    hide HashedIn;
    EmptyHashed();
  }

  lemma EmptyHashed()
    ensures HashedIn([]) == 0
  {
  }

  ghost predicate Counts(m: Missed, nodes: seq<Plan>) {
    && m.indexQuals == Total(nodes, indexQuals)
    && m.joinKeys == Total(nodes, joinKeys) + Total(nodes, hashedInOwn)
    && m.unsupported == Total(nodes, unsupported)
  }

  lemma CountsNothing()
    ensures Counts(Missed(0, 0, 0), [])
  {
  }

  lemma CountsConcat(m: Missed, a: seq<Plan>, n: Missed, b: seq<Plan>)
    requires Counts(m, a) && Counts(n, b)
    ensures Counts(PlusMissed(m, n), a + b)
  {
    hide Total;
    TotalConcat(a, b, indexQuals);
    TotalConcat(a, b, joinKeys);
    TotalConcat(a, b, hashedInOwn);
    TotalConcat(a, b, unsupported);
  }

  lemma CountsOne(plan: Plan)
    requires plan.Plan?
    ensures Counts(OwnMissed(plan), [plan])
  {
    hide Total, OwnMissed;
    OwnCounts(plan);
    TotalOne(plan, indexQuals);
    TotalOne(plan, joinKeys);
    TotalOne(plan, hashedInOwn);
    TotalOne(plan, unsupported);
  }

  lemma {:induction false} PlanCounts(p: Probe, plan: Plan)
    ensures Counts(ProbePlan(p, plan).1, Visited(plan))
    decreases plan, 1
  {
    hide Counts, OwnMissed, PlusMissed, PlannedAll;
    match plan {
      case NoPlan => CountsNothing();
      case Plan(kind, _, _, _, _, children, lefttree, righttree) =>
        CountsNothing();
        PlansCount(p, children);
        PlanCounts(p, lefttree);
        PlanCounts(p, righttree);
        var (m, nodes) := if kind != Unsupported then (ProbeAll(p, children).1, VisitedAll(children)) else (Missed(0, 0, 0), []);
        NodeCounts(plan, m, nodes, ProbePlan(p, lefttree).1, Visited(lefttree), ProbePlan(p, righttree).1, Visited(righttree));
    }
  }

  lemma NodeCounts(plan: Plan, m: Missed, nodes: seq<Plan>, left: Missed, lefts: seq<Plan>, right: Missed, rights: seq<Plan>)
    requires plan.Plan? && Counts(m, nodes) && Counts(left, lefts) && Counts(right, rights)
    ensures Counts(PlusMissed(PlusMissed(OwnMissed(plan), m), PlusMissed(left, right)), [plan] + nodes + lefts + rights)
  {
    hide Counts, OwnMissed, PlusMissed;
    CountsOne(plan);
    CountsConcat(OwnMissed(plan), [plan], m, nodes);
    CountsConcat(left, lefts, right, rights);
    CountsConcat(PlusMissed(OwnMissed(plan), m), [plan] + nodes, PlusMissed(left, right), lefts + rights);
    assert [plan] + nodes + lefts + rights == [plan] + nodes + (lefts + rights);
  }

  lemma {:induction false} PlansCount(p: Probe, plans: seq<Plan>)
    ensures Counts(ProbeAll(p, plans).1, VisitedAll(plans))
    decreases plans
  {
    hide Counts, Visited, ProbePlan, PlusMissed;
    if plans == [] {
      CountsNothing();
    } else {
      PlanCounts(p, plans[0]);
      PlansCount(p, plans[1..]);
      CountsConcat(ProbePlan(p, plans[0]).1, Visited(plans[0]), ProbeAll(p, plans[1..]).1, VisitedAll(plans[1..]));
    }
  }

  // ---------------------------------------------------------------- expressions

  /** Every expression `probe_planned_expression` enters: of a hashed subplan its arguments but not its test expression. */
  function Entered(e: Expr): seq<Expr>
    decreases e, 1
  {
    [e] + match e
      case Leaf(_) => []
      case CaseTest => []
      case Op(_, _, args) => EnteredAll(args)
      case And(args) => EnteredAll(args)
      case Or(args) => EnteredAll(args)
      case Coalesce(args) => EnteredAll(args)
      case Case(args) => EnteredAll(args)
      case SimpleCase(arg, args) => Entered(arg) + EnteredAll(args)
      case Func(_, args) => EnteredAll(args)
      case SubPlan(_, _, useHashTable, testexpr, args) => EnteredAll(args) + if useHashTable then [] else Entered(testexpr)
  }

  function EnteredAll(es: seq<Expr>): seq<Expr>
    decreases es
  {
    if es == [] then [] else Entered(es[0]) + EnteredAll(es[1..])
  }

  const hashed: Expr -> nat := (e: Expr) => if e.SubPlan? && e.useHashTable then 1 else 0

  lemma {:induction false} HashedCounts(e: Expr)
    ensures HashedSubPlans(e) == Total(Entered(e), hashed)
    decreases e, 1
  {
    hide Total, EnteredAll, HashedIn;
    TotalOne(e, hashed);
    if e.Leaf? || e.CaseTest? {
      assert Entered(e) == [e];
    }
    if !e.Leaf? && !e.CaseTest? {
      HashedCountsAll(e.args);
      TotalConcat([e], EnteredAll(e.args), hashed);
      match e {
        case SimpleCase(arg, args) =>
          HashedCounts(arg);
          TotalConcat(Entered(arg), EnteredAll(args), hashed);
          TotalConcat([e], Entered(arg) + EnteredAll(args), hashed);
        case SubPlan(_, _, useHashTable, testexpr, args) =>
          if useHashTable {
            assert EnteredAll(args) + [] == EnteredAll(args);
          } else {
            HashedCounts(testexpr);
            TotalConcat(EnteredAll(args), Entered(testexpr), hashed);
            TotalConcat([e], EnteredAll(args) + Entered(testexpr), hashed);
          }
        case _ =>
      }
    }
  }

  lemma {:induction false} HashedCountsAll(es: seq<Expr>)
    ensures HashedIn(es) == Total(EnteredAll(es), hashed)
    decreases es
  {
    hide HashedSubPlans, Entered;
    if es != [] {
      HashedCounts(es[0]);
      HashedCountsAll(es[1..]);
      TotalConcat(Entered(es[0]), EnteredAll(es[1..]), hashed);
    }
  }

  /** All rewritten expressions of the nodes. */
  function ExprsOf(nodes: seq<Plan>): seq<Expr> {
    if nodes == [] then [] else OwnExprs(nodes[0]) + ExprsOf(nodes[1..])
  }

  lemma {:induction false} HashedInNodes(nodes: seq<Plan>)
    ensures Total(nodes, hashedInOwn) == HashedIn(ExprsOf(nodes))
  {
    hide HashedIn, OwnExprs;
    if nodes == [] {
      EmptyHashed();
    } else {
      HashedInNodes(nodes[1..]);
      HashedConcat(OwnExprs(nodes[0]), ExprsOf(nodes[1..]));
    }
  }

  /**
   * `unobserved_index_quals` counts the quals of every index scan visited, `unobserved_join_keys` the
   * clauses of every hash or merge join visited and each hashed subplan entered in an expression, and
   * `unsupported_plans` the nodes visited that are of no supported kind.
   */
  lemma CountersMean(p: Probe, plan: Plan)
    ensures
      var m, nodes := ProbePlan(p, plan).1, Visited(plan);
      && m.indexQuals == Total(nodes, indexQuals)
      && m.joinKeys == Total(nodes, joinKeys) + Total(EnteredAll(ExprsOf(nodes)), hashed)
      && m.unsupported == Total(nodes, unsupported)
  {
    hide ProbePlan, Visited, Total, HashedIn, ExprsOf, EnteredAll;
    PlanCounts(p, plan);
    HashedInNodes(Visited(plan));
    HashedCountsAll(ExprsOf(Visited(plan)));
  }

  // ---------------------------------------------------------------- predicates

  /**
   * One evaluation of an operator node of the rewritten expression counts one more predicate than its
   * operands do exactly if it completes and the node is a Boolean operator, a NULL test, a Boolean test
   * or an ANY/ALL over an array; any other node counts none of its own.
   */
  lemma PredicateCountedExactlyWhen(w: World, p: Probe, env: Env, t: Time, kind: OpKind, op: Oid, args: seq<Expr>)
    ensures
      var operands := EvalAll(w, p, env, t, PlannedAll(p, args));
      var r := Eval(w, p, env, t, Planned(p, Op(kind, op, args)));
      r.tally.direct == operands.tally.direct
                        + if r.outcome.Ok? && kind in {OpExpr(true), NullTest, BooleanTest, ScalarArrayOp} then 1 else 0
  {
    hide EvalAll, PlannedAll;
    WrapCounts(w, p, env, t, Op(kind, op, PlannedAll(p, args)));
  }
}
