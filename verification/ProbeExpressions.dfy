/**
 * The expression rewriter of scripts/crm/permission-probe.c over abstract expression trees.
 * Expressions are evaluated under SQL's three-valued logic with PostgreSQL's short cuts;
 * an ERROR raised anywhere aborts the evaluation.  Whatever is called outside the expression may be
 * volatile: its answer depends on how much was called before.
 */
module ProbeExpressions {
  import opened Options

  type Oid = nat
  /** How many operators, functions and subplans have been called so far. */
  type Time = nat

  datatype Value = Null | Bool(b: bool) | Datum(n: int)
  datatype Outcome = Ok(value: Value) | Error
  /** Everything an expression reads while it runs: tuple slots and executor parameters, and the value that CASE tests. */
  datatype Env = Env(row: nat, tested: Value)

  /** Node types told apart by `probe_planned_expression`; `Strict` is any other node that evaluates all its operands. */
  datatype OpKind = OpExpr(boolResult: bool) | NullTest | BooleanTest | ScalarArrayOp | Strict
  /** ANY stops at true and ALL at false; a scalar subplan has no test expression. */
  datatype SubKind = Quantified(stop: bool) | Scalar

  datatype Expr =
    | Leaf(id: nat)
    | Op(kind: OpKind, op: Oid, args: seq<Expr>)
    | And(args: seq<Expr>)
    | Or(args: seq<Expr>)
    | Coalesce(args: seq<Expr>)
    | Case(args: seq<Expr>)                       // condition, result, ..., default
    | SimpleCase(arg: Expr, args: seq<Expr>)      // CASE arg: the conditions read its value
    | CaseTest                                    // that value
    | Func(funcid: Oid, args: seq<Expr>)
    | SubPlan(plan: nat, sub: SubKind, useHashTable: bool, testexpr: Expr, args: seq<Expr>)

  /** What the executor supplies; a hashed subplan reads its test expression as a key descriptor. */
  datatype World = World(
    leaf: (nat, Env) -> Value,
    op: (OpKind, Oid, seq<Value>, Time) -> Outcome,
    call: (Oid, seq<Value>, Time) -> Outcome,
    rows: (nat, seq<Value>, Env, Time) -> seq<Env>,
    scalar: (nat, seq<Value>, Env, Time) -> Outcome,
    probe: (nat, Expr, seq<Value>, Env, Time) -> Outcome)

  /** One entry of `hash_map`; the replacement is declared STRICT exactly if the builtin is. */
  datatype Builtin = Builtin(original: Oid, replacement: Oid, hash: bool, strict: bool)
  datatype Probe = Probe(direct: Oid, builtins: seq<Builtin>)

  /** `predicates`, `digests` and `checks` count what was evaluated; the rest are the probe's counters. */
  datatype Tally = Tally(predicates: nat, digests: nat, checks: nat, direct: nat, hashes: nat, privileges: nat)
  const ZERO := Tally(0, 0, 0, 0, 0, 0)

  function Plus(a: Tally, b: Tally): Tally {
    Tally(a.predicates + b.predicates, a.digests + b.digests, a.checks + b.checks,
          a.direct + b.direct, a.hashes + b.hashes, a.privileges + b.privileges)
  }

  /** The result of an evaluation, what it counted, and the time it ended. */
  datatype Run = Run(outcome: Outcome, tally: Tally, time: Time)
  datatype Runs = Runs(values: Option<seq<Value>>, tally: Tally, time: Time)

  // ---------------------------------------------------------------- hash_map

  /** The loop over `hash_map` by `original`. */
  function ByOriginal(bs: seq<Builtin>, oid: Oid): (b: Option<Builtin>)
    ensures b.Some? ==> b.value in bs && b.value.original == oid
    ensures b.None? ==> forall x <- bs :: x.original != oid
  {
    if bs == [] then None else if bs[0].original == oid then Some(bs[0]) else ByOriginal(bs[1..], oid)
  }

  /** The loop of `crm_probe_hash` by `replacement`. */
  function ByReplacement(bs: seq<Builtin>, oid: Oid): (b: Option<Builtin>)
    ensures b.Some? ==> b.value in bs && b.value.replacement == oid
    ensures b.None? ==> forall x <- bs :: x.replacement != oid
  {
    if bs == [] then None else if bs[0].replacement == oid then Some(bs[0]) else ByReplacement(bs[1..], oid)
  }

  /** Replacements are rows of `pg_proc` in the probe's own schema. */
  ghost predicate PrivateOids(p: Probe) {
    && (forall i, j | 0 <= i < |p.builtins| && 0 <= j < |p.builtins| ::
          p.builtins[i].replacement == p.builtins[j].replacement ==> i == j)
    && (forall x, y | x in p.builtins && y in p.builtins :: x.original != y.replacement)
    && (forall x <- p.builtins :: x.original != p.direct && x.replacement != p.direct)
  }

  // ---------------------------------------------------------------- evaluation

  predicate IsPredicate(kind: OpKind) {
    match kind
    case OpExpr(boolResult) => boolResult
    case Strict => false
    case _ => true
  }

  /** A builtin that is reached through its replacement or on its own; a strict one is not called on a NULL. */
  function CallBuiltin(w: World, b: Builtin, vals: seq<Value>, count: Tally, t: Time): Run {
    if b.strict && Null in vals then Run(Ok(Null), ZERO, t) else Run(w.call(b.original, vals, t), count, t + 1)
  }

  /** What `crm_probe_hash` counts for a builtin. */
  function CountedAs(b: Builtin): Tally {
    if b.hash then ZERO.(hashes := 1) else ZERO.(privileges := 1)
  }

  /** What calling the builtin itself amounts to. */
  function WorkOf(b: Builtin): Tally {
    if b.hash then ZERO.(digests := 1) else ZERO.(checks := 1)
  }

  /** A function call by the executor: `crm_probe_direct`, `crm_probe_hash`, a builtin, or any other. */
  function Call(w: World, p: Probe, oid: Oid, vals: seq<Value>, t: Time): Run {
    if oid == p.direct && |vals| == 1 then Run(Ok(vals[0]), ZERO.(direct := 1), t)
    else match ByReplacement(p.builtins, oid)
      case Some(b) => CallBuiltin(w, b, vals, CountedAs(b), t)
      case None =>
        match ByOriginal(p.builtins, oid)
        case Some(b) => CallBuiltin(w, b, vals, WorkOf(b), t)
        case None => Run(w.call(oid, vals, t), ZERO, t + 1)
  }

  function Finish(args: Runs, run: Run): Run {
    if args.values.None? then Run(Error, args.tally, args.time) else Run(run.outcome, Plus(args.tally, run.tally), run.time)
  }

  function Then(first: Run, rest: Run): Run {
    Run(rest.outcome, Plus(first.tally, rest.tally), rest.time)
  }

  function Eval(w: World, p: Probe, env: Env, t: Time, e: Expr): Run
    decreases e, 1
  {
    match e
    case Leaf(id) => Run(Ok(w.leaf(id, env)), ZERO, t)
    case CaseTest => Run(Ok(env.tested), ZERO, t)
    case Op(kind, op, args) =>
      var r := EvalAll(w, p, env, t, args);
      if r.values.None? then Run(Error, r.tally, r.time)
      else
        var o := w.op(kind, op, r.values.value, r.time);
        Finish(r, Run(o, if IsPredicate(kind) && o.Ok? then ZERO.(predicates := 1) else ZERO, r.time + 1))
    case And(args) => EvalUntil(w, p, env, t, args, false, false)
    case Or(args) => EvalUntil(w, p, env, t, args, true, false)
    case Coalesce(args) => EvalCoalesce(w, p, env, t, args)
    case Case(args) => EvalCase(w, p, env, env, t, args)
    case SimpleCase(arg, args) =>
      var r := Eval(w, p, env, t, arg);
      if r.outcome.Error? then r else Then(r, EvalCase(w, p, env.(tested := r.outcome.value), env, r.time, args))
    case Func(funcid, args) =>
      var r := EvalAll(w, p, env, t, args);
      if r.values.None? then Run(Error, r.tally, r.time) else Finish(r, Call(w, p, funcid, r.values.value, r.time))
    case SubPlan(plan, sub, useHashTable, testexpr, args) =>
      var r := EvalAll(w, p, env, t, args);
      if r.values.None? then Run(Error, r.tally, r.time)
      else if useHashTable then Finish(r, Run(w.probe(plan, testexpr, r.values.value, env, r.time), ZERO, r.time + 1))
      else match sub
        case Scalar => Finish(r, Run(w.scalar(plan, r.values.value, env, r.time), ZERO, r.time + 1))
        case Quantified(stop) => Finish(r, EvalRows(w, p, w.rows(plan, r.values.value, env, r.time), r.time + 1, testexpr, stop, false))
  }

  /** All operands, left to right. */
  function EvalAll(w: World, p: Probe, env: Env, t: Time, es: seq<Expr>): Runs
    decreases es
  {
    if es == [] then Runs(Some([]), ZERO, t)
    else
      var r := Eval(w, p, env, t, es[0]);
      if r.outcome.Error? then Runs(None, r.tally, r.time)
      else
        var rest := EvalAll(w, p, env, r.time, es[1..]);
        Runs(if rest.values.Some? then Some([r.outcome.value] + rest.values.value) else None, Plus(r.tally, rest.tally), rest.time)
  }

  /** AND stops at the first false, OR at the first true; otherwise a NULL operand makes the result NULL. */
  function EvalUntil(w: World, p: Probe, env: Env, t: Time, es: seq<Expr>, stop: bool, sawNull: bool): Run
    decreases es
  {
    if es == [] then Run(Ok(if sawNull then Null else Bool(!stop)), ZERO, t)
    else
      var r := Eval(w, p, env, t, es[0]);
      if r.outcome.Error? || r.outcome.value == Bool(stop) then r
      else Then(r, EvalUntil(w, p, env, r.time, es[1..], stop, sawNull || r.outcome.value.Null?))
  }

  function EvalCoalesce(w: World, p: Probe, env: Env, t: Time, es: seq<Expr>): Run
    decreases es
  {
    if es == [] then Run(Ok(Null), ZERO, t)
    else
      var r := Eval(w, p, env, t, es[0]);
      if r.outcome != Ok(Null) then r else Then(r, EvalCoalesce(w, p, env, r.time, es[1..]))
  }

  /** The conditions are evaluated with the tested value, the results without. */
  function EvalCase(w: World, p: Probe, test: Env, env: Env, t: Time, es: seq<Expr>): Run
    decreases es
  {
    if es == [] then Run(Ok(Null), ZERO, t)
    else if |es| == 1 then Eval(w, p, env, t, es[0])
    else
      var r := Eval(w, p, test, t, es[0]);
      if r.outcome.Error? then r
      else Then(r, if r.outcome == Ok(Bool(true)) then Eval(w, p, env, r.time, es[1]) else EvalCase(w, p, test, env, r.time, es[2..]))
  }

  /** The test expression once per row of the subplan, with ANY's or ALL's short cut. */
  function EvalRows(w: World, p: Probe, envs: seq<Env>, t: Time, test: Expr, stop: bool, sawNull: bool): Run
    decreases test, 2, |envs|
  {
    if envs == [] then Run(Ok(if sawNull then Null else Bool(!stop)), ZERO, t)
    else
      var r := Eval(w, p, envs[0], t, test);
      if r.outcome.Error? || r.outcome.value == Bool(stop) then r
      else Then(r, EvalRows(w, p, envs[1..], r.time, test, stop, sawNull || r.outcome.value.Null?))
  }

  // ---------------------------------------------------------------- probe_planned_expression

  function DirectWrap(p: Probe, e: Expr): Expr {
    Func(p.direct, [e])
  }

  function Replaced(p: Probe, funcid: Oid): Oid {
    var b := ByOriginal(p.builtins, funcid);
    if b.Some? then b.value.replacement else funcid
  }

  function Planned(p: Probe, e: Expr): Expr
    decreases e, 1
  {
    match e
    case SubPlan(plan, sub, true, testexpr, args) => SubPlan(plan, sub, true, testexpr, PlannedAll(p, args))
    case SubPlan(plan, sub, false, testexpr, args) => SubPlan(plan, sub, false, Planned(p, testexpr), PlannedAll(p, args))
    case Op(kind, op, args) =>
      var copy := Op(kind, op, PlannedAll(p, args));
      if IsPredicate(kind) then DirectWrap(p, copy) else copy
    case Func(funcid, args) => Func(Replaced(p, funcid), PlannedAll(p, args))
    case And(args) => And(PlannedAll(p, args))
    case Or(args) => Or(PlannedAll(p, args))
    case Coalesce(args) => Coalesce(PlannedAll(p, args))
    case Case(args) => Case(PlannedAll(p, args))
    case SimpleCase(arg, args) => SimpleCase(Planned(p, arg), PlannedAll(p, args))
    case CaseTest => e
    case Leaf(_) => e
  }

  function PlannedAll(p: Probe, es: seq<Expr>): (r: seq<Expr>)
    ensures |r| == |es|
    ensures forall i | 0 <= i < |es| :: r[i] == Planned(p, es[i])
    decreases es
  {
    if es == [] then [] else [Planned(p, es[0])] + PlannedAll(p, es[1..])
  }

  // ---------------------------------------------------------------- what it preserves

  /** The counters of the rewritten expression: what the original evaluated has been counted. */
  function Counted(t: Tally): Tally {
    Tally(t.predicates, 0, 0, t.direct + t.predicates, t.hashes + t.digests, t.privileges + t.checks)
  }

  function CountedRun(r: Run): Run {
    Run(r.outcome, Counted(r.tally), r.time)
  }

  lemma CountedPlus(a: Tally, b: Tally)
    ensures Counted(Plus(a, b)) == Plus(Counted(a), Counted(b))
  {
  }

  /** The replacement of a builtin leads back to that builtin's own entry. */
  lemma RoundTrip(p: Probe, b: Builtin)
    requires PrivateOids(p) && b in p.builtins
    ensures ByReplacement(p.builtins, b.replacement) == Some(b)
    ensures ByReplacement(p.builtins, b.original).None? && b.original != p.direct && b.replacement != p.direct
  {
    var r := ByReplacement(p.builtins, b.replacement);
    var i :| 0 <= i < |p.builtins| && p.builtins[i] == b;
    assert r.Some?;
    var j :| 0 <= j < |p.builtins| && p.builtins[j] == r.value;
    assert i == j;
  }

  /** Work done by a builtin itself is what its replacement counts. */
  lemma WorkIsCounted(b: Builtin)
    ensures Counted(WorkOf(b)) == CountedAs(b)
  {
  }

  lemma BuiltinPreserved(w: World, b: Builtin, vals: seq<Value>, t: Time)
    ensures CallBuiltin(w, b, vals, CountedAs(b), t) == CountedRun(CallBuiltin(w, b, vals, WorkOf(b), t))
  {
    hide Counted, WorkOf, CountedAs;
    WorkIsCounted(b);
    var skipped := Run(Ok(Null), ZERO, t);
    CountedNothing(skipped.tally);
    var called := Run(w.call(b.original, vals, t), WorkOf(b), t + 1);
    assert CountedRun(skipped) == skipped && CountedRun(called) == called.(tally := CountedAs(b));
  }

  /** A call of a builtin, and of its replacement. */
  lemma MappedCall(w: World, p: Probe, b: Builtin, vals: seq<Value>, t: Time)
    requires PrivateOids(p) && ByOriginal(p.builtins, b.original) == Some(b)
    ensures Call(w, p, b.original, vals, t) == CallBuiltin(w, b, vals, WorkOf(b), t)
    ensures Call(w, p, b.replacement, vals, t) == CallBuiltin(w, b, vals, CountedAs(b), t)
  {
    RoundTrip(p, b);
    hide PrivateOids, ByOriginal, ByReplacement, CallBuiltin, WorkOf, CountedAs;
  }

  /**
   * What a replacement does for its caller: it calls the builtin with the same arguments and counts one
   * hash or one privilege check; declared STRICT, it is not called when an argument is NULL.
   */
  lemma ReplacementRuns(w: World, p: Probe, b: Builtin, vals: seq<Value>, t: Time)
    requires PrivateOids(p) && ByOriginal(p.builtins, b.original) == Some(b)
    ensures
      Call(w, p, Replaced(p, b.original), vals, t) ==
      if b.strict && exists v :: v in vals && v.Null? then Run(Ok(Null), Tally(0, 0, 0, 0, 0, 0), t)
      else Run(w.call(b.original, vals, t), if b.hash then Tally(0, 0, 0, 0, 1, 0) else Tally(0, 0, 0, 0, 0, 1), t + 1)
  {
    MappedCall(w, p, b, vals, t);
    hide PrivateOids, ByReplacement;
  }

  /** A call that no builtin is behind counts the same before and after. */
  lemma OtherCall(w: World, p: Probe, oid: Oid, vals: seq<Value>, t: Time)
    requires ByOriginal(p.builtins, oid).None?
    ensures Call(w, p, oid, vals, t) == CountedRun(Call(w, p, oid, vals, t))
  {
    hide ByOriginal, ByReplacement, CallBuiltin, Counted;
    CountedNothing(ZERO);
    CountsCalls();
    match ByReplacement(p.builtins, oid) {
      case Some(b) => ReplacementStays(w, b, vals, t);
      case None =>
    }
  }

  /** What the probe has counted is not counted again. */
  lemma CountsCalls()
    ensures Counted(ZERO.(direct := 1)) == ZERO.(direct := 1)
    ensures forall b: Builtin :: Counted(CountedAs(b)) == CountedAs(b)
  {
    hide Counted, CountedAs;
    OneDirect(ZERO.(direct := 1));
    forall b: Builtin ensures Counted(CountedAs(b)) == CountedAs(b) {
      OneCounted(b, CountedAs(b));
    }
  }

  lemma OneDirect(one: Tally)
    requires one == ZERO.(direct := 1)
    ensures Counted(one) == one
  {
    hide Counted;
    CountedByProbe(one);
  }

  lemma OneCounted(b: Builtin, one: Tally)
    requires one == CountedAs(b)
    ensures Counted(one) == one
  {
    hide Counted;
    CountedByProbe(one);
  }

  lemma CountedByProbe(t: Tally)
    requires t.predicates <= 0 && t.digests <= 0 && t.checks <= 0
    ensures Counted(t) == t
  {
  }

  lemma ReplacementStays(w: World, b: Builtin, vals: seq<Value>, t: Time)
    ensures CallBuiltin(w, b, vals, CountedAs(b), t) == CountedRun(CallBuiltin(w, b, vals, CountedAs(b), t))
  {
    hide Counted, CountedAs;
    CountsCalls();
    var skipped := Run(Ok(Null), ZERO, t);
    CountedNothing(skipped.tally);
    assert CountedRun(skipped) == skipped;
  }

  lemma CallPreserved(w: World, p: Probe, funcid: Oid, vals: seq<Value>, t: Time)
    requires PrivateOids(p)
    ensures Call(w, p, Replaced(p, funcid), vals, t) == CountedRun(Call(w, p, funcid, vals, t))
  {
    hide PrivateOids, ByReplacement, Call, CallBuiltin, CountedRun, WorkOf, CountedAs;
    match ByOriginal(p.builtins, funcid) {
      case Some(b) =>
        MappedCall(w, p, b, vals, t);
        BuiltinPreserved(w, b, vals, t);
      case None => OtherCall(w, p, funcid, vals, t);
    }
  }

  lemma ThenCounted(first: Run, rest: Run)
    ensures CountedRun(Then(first, rest)) == Then(CountedRun(first), CountedRun(rest))
  {
    CountedPlus(first.tally, rest.tally);
  }

  /**
   * The rewritten expression has the same outcome, NULL and ERROR included, and calls everything
   * outside it with the same operands in the same order; `direct_predicates` grows by one for every
   * predicate node that was evaluated, and `hashes` and `privileges` by one for every call of a
   * mapped builtin.
   */
  lemma {:induction false} PlannedPreserves(w: World, p: Probe, env: Env, t: Time, e: Expr)
    requires PrivateOids(p)
    ensures Eval(w, p, env, t, Planned(p, e)) == CountedRun(Eval(w, p, env, t, e))
    decreases e, 1
  {
    hide PrivateOids, EvalAll, EvalUntil, EvalCoalesce, EvalCase, EvalRows, PlannedAll, Call, Replaced, Counted, Plus, ByOriginal, ByReplacement;
    CountedNothing(ZERO);
    match e {
      case Leaf(_) =>
      case CaseTest =>
      case Op(kind, op, args) => OpPreserved(w, p, env, t, kind, op, args);
      case And(args) => UntilPreserved(w, p, env, t, args, false, false);
      case Or(args) => UntilPreserved(w, p, env, t, args, true, false);
      case Coalesce(args) => CoalescePreserved(w, p, env, t, args);
      case Case(args) => CasePreserved(w, p, env, env, t, args);
      case SimpleCase(arg, args) =>
        PlannedPreserves(w, p, env, t, arg);
        var r := Eval(w, p, env, t, arg);
        if r.outcome.Ok? {
          var test := env.(tested := r.outcome.value);
          CasePreserved(w, p, test, env, r.time, args);
          ThenCounted(r, EvalCase(w, p, test, env, r.time, args));
        }
      case Func(funcid, args) =>
        AllPreserved(w, p, env, t, args);
        var r := EvalAll(w, p, env, t, args);
        if r.values.Some? {
          CallPreserved(w, p, funcid, r.values.value, r.time);
          CountedPlus(r.tally, Call(w, p, funcid, r.values.value, r.time).tally);
        }
      case SubPlan(plan, sub, useHashTable, testexpr, args) =>
        AllPreserved(w, p, env, t, args);
        var r := EvalAll(w, p, env, t, args);
        CountedPlus(r.tally, ZERO);
        if r.values.Some? && !useHashTable && sub.Quantified? {
          var envs := w.rows(plan, r.values.value, env, r.time);
          RowsPreserved(w, p, envs, r.time + 1, testexpr, sub.stop, false);
          CountedPlus(r.tally, EvalRows(w, p, envs, r.time + 1, testexpr, sub.stop, false).tally);
        }
    }
  }

  lemma CountedNothing(zero: Tally)
    requires zero == ZERO
    ensures Counted(zero) == zero
  {
    assert zero.predicates == 0 && zero.digests == 0 && zero.checks == 0;
    assert zero.direct == 0 && zero.hashes == 0 && zero.privileges == 0;
    var c := Counted(zero);
    assert c.predicates == 0 && c.digests == 0 && c.checks == 0 && c.direct == 0 && c.hashes == 0 && c.privileges == 0;
  }

  lemma CountedOne(one: Tally, wrapper: Tally)
    requires one == ZERO.(predicates := 1) && wrapper == ZERO.(direct := 1)
    ensures Counted(one) == Plus(one, wrapper)
  {
  }

  lemma PlusZero(t: Tally)
    ensures Plus(ZERO, t) == t && Plus(t, ZERO) == t
  {
  }

  lemma PlusAssociates(a: Tally, b: Tally, c: Tally)
    ensures Plus(Plus(a, b), c) == Plus(a, Plus(b, c))
  {
  }

  lemma {:induction false} OpPreserved(w: World, p: Probe, env: Env, t: Time, kind: OpKind, op: Oid, args: seq<Expr>)
    requires PrivateOids(p)
    ensures Eval(w, p, env, t, Planned(p, Op(kind, op, args))) == CountedRun(Eval(w, p, env, t, Op(kind, op, args)))
    decreases Op(kind, op, args), 0
  {
    hide PrivateOids, EvalAll, EvalUntil, EvalCoalesce, EvalCase, EvalRows, PlannedAll, Call, Replaced, Counted, Plus, ByOriginal, ByReplacement;
    CountedNothing(ZERO);
    AllPreserved(w, p, env, t, args);
    var r := EvalAll(w, p, env, t, args);
    var copy := Op(kind, op, PlannedAll(p, args));
    CountedPlus(r.tally, ZERO);
    CountedPlus(r.tally, ZERO.(predicates := 1));
    CountedOne(ZERO.(predicates := 1), ZERO.(direct := 1));
    if IsPredicate(kind) {
      WrapCounts(w, p, env, t, copy);
      PlusAssociates(Counted(r.tally), ZERO.(predicates := 1), ZERO.(direct := 1));
    }
  }

  /** A wrapper adds one call of `crm_probe_direct` to an evaluation that completes, and calls nothing else. */
  lemma WrapCounts(w: World, p: Probe, env: Env, t: Time, e: Expr)
    ensures
      var r := Eval(w, p, env, t, e);
      Eval(w, p, env, t, DirectWrap(p, e)) == Run(r.outcome, if r.outcome.Ok? then Plus(r.tally, ZERO.(direct := 1)) else r.tally, r.time)
  {
    var r := Eval(w, p, env, t, e);
    OneArgument(w, p, env, t, e);
    hide EvalAll, Plus, ByOriginal, ByReplacement;
    assert DirectWrap(p, e) == Func(p.direct, [e]);
  }

  lemma OneArgument(w: World, p: Probe, env: Env, t: Time, e: Expr)
    ensures
      var r := Eval(w, p, env, t, e);
      EvalAll(w, p, env, t, [e]) == Runs(if r.outcome.Ok? then Some([r.outcome.value]) else None, r.tally, r.time)
  {
    hide Eval;
    var r := Eval(w, p, env, t, e);
    PlusZero(r.tally);
    assert [e][1..] == [];
    assert EvalAll(w, p, env, r.time, [e][1..]) == Runs(Some([]), ZERO, r.time);
    hide Plus;
    if r.outcome.Ok? {
      assert [r.outcome.value] + [] == [r.outcome.value];
    }
  }

  lemma {:induction false} AllPreserved(w: World, p: Probe, env: Env, t: Time, es: seq<Expr>)
    requires PrivateOids(p)
    ensures
      var r := EvalAll(w, p, env, t, es);
      EvalAll(w, p, env, t, PlannedAll(p, es)) == Runs(r.values, Counted(r.tally), r.time)
    decreases es
  {
    hide PrivateOids, Eval, Planned, Counted, Plus;
    if es == [] {
      CountedNothing(ZERO);
    } else {
      PlannedPreserves(w, p, env, t, es[0]);
      var r := Eval(w, p, env, t, es[0]);
      AllPreserved(w, p, env, r.time, es[1..]);
      assert PlannedAll(p, es)[1..] == PlannedAll(p, es[1..]);
      CountedPlus(r.tally, EvalAll(w, p, env, r.time, es[1..]).tally);
    }
  }

  lemma {:induction false} UntilPreserved(w: World, p: Probe, env: Env, t: Time, es: seq<Expr>, stop: bool, sawNull: bool)
    requires PrivateOids(p)
    ensures EvalUntil(w, p, env, t, PlannedAll(p, es), stop, sawNull) == CountedRun(EvalUntil(w, p, env, t, es, stop, sawNull))
    decreases es
  {
    hide PrivateOids, Eval, Planned, Counted, Plus;
    if es == [] {
      CountedNothing(ZERO);
    } else {
      PlannedPreserves(w, p, env, t, es[0]);
      assert PlannedAll(p, es)[1..] == PlannedAll(p, es[1..]);
      var r := Eval(w, p, env, t, es[0]);
      if r.outcome.Ok? {
        var saw := sawNull || r.outcome.value.Null?;
        UntilPreserved(w, p, env, r.time, es[1..], stop, saw);
        ThenCounted(r, EvalUntil(w, p, env, r.time, es[1..], stop, saw));
      }
    }
  }

  lemma {:induction false} CoalescePreserved(w: World, p: Probe, env: Env, t: Time, es: seq<Expr>)
    requires PrivateOids(p)
    ensures EvalCoalesce(w, p, env, t, PlannedAll(p, es)) == CountedRun(EvalCoalesce(w, p, env, t, es))
    decreases es
  {
    hide PrivateOids, Eval, Planned, Counted, Plus;
    if es == [] {
      CountedNothing(ZERO);
    } else {
      PlannedPreserves(w, p, env, t, es[0]);
      var r := Eval(w, p, env, t, es[0]);
      CoalescePreserved(w, p, env, r.time, es[1..]);
      assert PlannedAll(p, es)[1..] == PlannedAll(p, es[1..]);
      ThenCounted(r, EvalCoalesce(w, p, env, r.time, es[1..]));
    }
  }

  lemma {:induction false} CasePreserved(w: World, p: Probe, test: Env, env: Env, t: Time, es: seq<Expr>)
    requires PrivateOids(p)
    ensures EvalCase(w, p, test, env, t, PlannedAll(p, es)) == CountedRun(EvalCase(w, p, test, env, t, es))
    decreases es
  {
    hide PrivateOids, Eval, Planned, Counted, Plus;
    if es == [] {
      CountedNothing(ZERO);
    } else if |es| == 1 {
      PlannedPreserves(w, p, env, t, es[0]);
    } else {
      PlannedPreserves(w, p, test, t, es[0]);
      var r := Eval(w, p, test, t, es[0]);
      PlannedPreserves(w, p, env, r.time, es[1]);
      CasePreserved(w, p, test, env, r.time, es[2..]);
      assert PlannedAll(p, es)[2..] == PlannedAll(p, es[2..]);
      ThenCounted(r, Eval(w, p, env, r.time, es[1]));
      ThenCounted(r, EvalCase(w, p, test, env, r.time, es[2..]));
    }
  }

  lemma {:induction false} RowsPreserved(w: World, p: Probe, envs: seq<Env>, t: Time, test: Expr, stop: bool, sawNull: bool)
    requires PrivateOids(p)
    ensures EvalRows(w, p, envs, t, Planned(p, test), stop, sawNull) == CountedRun(EvalRows(w, p, envs, t, test, stop, sawNull))
    decreases test, 2, |envs|
  {
    hide PrivateOids, Eval, Planned, Counted, Plus;
    if envs == [] {
      CountedNothing(ZERO);
    } else {
      PlannedPreserves(w, p, envs[0], t, test);
      var r := Eval(w, p, envs[0], t, test);
      if r.outcome.Ok? {
        var saw := sawNull || r.outcome.value.Null?;
        RowsPreserved(w, p, envs[1..], r.time, test, stop, saw);
        ThenCounted(r, EvalRows(w, p, envs[1..], r.time, test, stop, saw));
      }
    }
  }
}
