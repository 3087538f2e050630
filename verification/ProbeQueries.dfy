/**
 * The raw-query rewriter `probe_expression` of scripts/crm/permission-probe.c.  A `Query` opens a
 * new level; its range-table entries carry row-security qualifications, which are wrapped apart.
 */
module ProbeQueries {
  import opened Options
  import opened ProbeExpressions

  /** `direct` is `direct_var`'s verdict on the variable against its own query's range table. */
  datatype Raw =
    | Var(id: nat, boolean: bool, direct: bool)
    | Node(isPredicate: bool, tag: nat, args: seq<Raw>)  // a Boolean OpExpr, NullTest or ScalarArrayOpExpr, or anything else
    | Call(funcid: Oid, args: seq<Raw>)
    | Query(securityQuals: seq<Raw>, parts: seq<Raw>)

  /** `direct_var`: a watched column occurs in this node, not counting nested queries. */
  predicate DirectVar(e: Raw)
    decreases e, 1
  {
    match e
    case Var(_, _, direct) => direct
    case Node(_, _, args) => AnyDirect(args)
    case Call(_, args) => AnyDirect(args)
    case Query(_, _) => false
  }

  predicate AnyDirect(es: seq<Raw>)
    decreases es
  {
    es != [] && (DirectVar(es[0]) || AnyDirect(es[1..]))
  }

  /** The node types that `probe_expression` wraps when a watched column occurs in them. */
  predicate Candidate(e: Raw) {
    DirectVar(e) && (if e.Var? then e.boolean else e.Node? && e.isPredicate)
  }

  /** `context` is set at the top of a query and cleared inside a wrapper and inside qualifications. */
  function Rewrite(p: Probe, rls: Oid, e: Raw, context: bool): Raw
    decreases e, 1
  {
    if context && Candidate(e) then
      Call(p.direct, [if e.Node? then Node(e.isPredicate, e.tag, RewriteAll(p, rls, e.args, false)) else e])
    else
      match e
      case Var(_, _, _) => e
      case Node(isPredicate, tag, args) => Node(isPredicate, tag, RewriteAll(p, rls, args, context))
      case Call(funcid, args) => Call(Replaced(p, funcid), RewriteAll(p, rls, args, context))
      case Query(quals, parts) => Query(WrapQuals(p, rls, quals), RewriteAll(p, rls, parts, true))
  }

  function RewriteAll(p: Probe, rls: Oid, es: seq<Raw>, context: bool): seq<Raw>
    decreases es
  {
    if es == [] then [] else [Rewrite(p, rls, es[0], context)] + RewriteAll(p, rls, es[1..], context)
  }

  function WrapQuals(p: Probe, rls: Oid, es: seq<Raw>): seq<Raw>
    decreases es
  {
    if es == [] then [] else [Call(rls, [Rewrite(p, rls, es[0], false)])] + WrapQuals(p, rls, es[1..])
  }

  // ---------------------------------------------------------------- at most one wrapper on a path

  /** The most direct wrappers on any path that stays within this query level. */
  function Depth(p: Probe, e: Raw): nat
    decreases e, 1
  {
    match e
    case Var(_, _, _) => 0
    case Node(_, _, args) => DepthAll(p, args)
    case Call(funcid, args) => DepthAll(p, args) + if funcid == p.direct then 1 else 0
    case Query(_, _) => 0
  }

  function DepthAll(p: Probe, es: seq<Raw>): nat
    decreases es
  {
    if es == [] then 0
    else
      var a, b := Depth(p, es[0]), DepthAll(p, es[1..]);
      if a < b then b else a
  }

  /**
   * In every nested query: at most one wrapper on a path through its parts and every watched
   * predicate under one; none in its qualifications, each of which is counted by `rls`.
   */
  ghost predicate LevelsOk(p: Probe, rls: Oid, e: Raw)
    decreases e, 1
  {
    match e
    case Var(_, _, _) => true
    case Node(_, _, args) => LevelsOkAll(p, rls, args)
    case Call(_, args) => LevelsOkAll(p, rls, args)
    case Query(quals, parts) =>
      && DepthAll(p, parts) <= 1 && !AnyExposed(p, parts) && LevelsOkAll(p, rls, parts)
      && DepthAll(p, quals) == 0 && LevelsOkAll(p, rls, quals)
      && (forall i | 0 <= i < |quals| :: quals[i].Call? && quals[i].funcid == rls)
  }

  ghost predicate LevelsOkAll(p: Probe, rls: Oid, es: seq<Raw>)
    decreases es
  {
    es == [] || (LevelsOk(p, rls, es[0]) && LevelsOkAll(p, rls, es[1..]))
  }

  /** The input mentions no function of the probe's own schema. */
  ghost predicate Clean(p: Probe, rls: Oid, e: Raw)
    decreases e, 1
  {
    match e
    case Var(_, _, _) => true
    case Node(_, _, args) => CleanAll(p, rls, args)
    case Call(funcid, args) =>
      funcid != p.direct && funcid != rls && ByReplacement(p.builtins, funcid).None? && CleanAll(p, rls, args)
    case Query(quals, parts) => CleanAll(p, rls, quals) && CleanAll(p, rls, parts)
  }

  ghost predicate CleanAll(p: Probe, rls: Oid, es: seq<Raw>)
    decreases es
  {
    es == [] || (Clean(p, rls, es[0]) && CleanAll(p, rls, es[1..]))
  }

  /** The probe's functions are all different, and are not among the builtins they replace. */
  ghost predicate ProbeOk(p: Probe, rls: Oid) {
    && PrivateOids(p) && rls != p.direct
    && (forall b <- p.builtins :: b.original != rls && b.replacement != rls)
  }

  lemma ReplacedIsNotDirect(p: Probe, rls: Oid, funcid: Oid)
    requires ProbeOk(p, rls) && funcid != p.direct && funcid != rls
    ensures Replaced(p, funcid) != p.direct && Replaced(p, funcid) != rls
  {
  }

  /**
   * In the query and in every nested one, no path within the level carries two direct wrappers, no
   * watched predicate is left without one, and row-security qualifications carry none.
   */
  lemma {:induction false} AtMostOneWrapper(p: Probe, rls: Oid, e: Raw, context: bool)
    requires ProbeOk(p, rls) && Clean(p, rls, e)
    ensures Depth(p, Rewrite(p, rls, e, context)) <= if context then 1 else 0
    ensures LevelsOk(p, rls, Rewrite(p, rls, e, context))
    decreases e, 1
  {
    hide ProbeOk, DepthAll, AnyExposed, LevelsOkAll, CleanAll, RewriteAll, WrapQuals, Candidate, Replaced, ByReplacement;
    match e {
      case Var(_, _, _) => WrapperDepth(p, rls, e);
      case Node(isPredicate, tag, args) =>
        AtMostOneInAll(p, rls, args, context);
        AtMostOneInAll(p, rls, args, false);
        WrapperDepth(p, rls, Node(isPredicate, tag, RewriteAll(p, rls, args, false)));
      case Call(funcid, args) =>
        NotACandidate(e);
        AtMostOneInAll(p, rls, args, context);
        ReplacedIsNotDirect(p, rls, funcid);
      case Query(quals, parts) =>
        NotACandidate(e);
        AtMostOneInAll(p, rls, parts, true);
        NothingExposedInAll(p, rls, parts, true);
        QualsHaveNone(p, rls, quals);
    }
  }

  lemma NotACandidate(e: Raw)
    requires e.Call? || e.Query?
    ensures !Candidate(e)
  {
  }

  lemma WrapperDepth(p: Probe, rls: Oid, e: Raw)
    ensures Depth(p, Call(p.direct, [e])) == Depth(p, e) + 1
    ensures LevelsOk(p, rls, Call(p.direct, [e])) <==> LevelsOk(p, rls, e)
  {
    One(p, rls, e);
  }

  lemma One(p: Probe, rls: Oid, e: Raw)
    ensures DepthAll(p, [e]) == Depth(p, e) && (LevelsOkAll(p, rls, [e]) <==> LevelsOk(p, rls, e))
  {
    assert [e][1..] == [];
  }

  lemma {:induction false} AtMostOneInAll(p: Probe, rls: Oid, es: seq<Raw>, context: bool)
    requires ProbeOk(p, rls) && CleanAll(p, rls, es)
    ensures DepthAll(p, RewriteAll(p, rls, es, context)) <= if context then 1 else 0
    ensures LevelsOkAll(p, rls, RewriteAll(p, rls, es, context))
    decreases es
  {
    hide ProbeOk, Depth, LevelsOk, Clean, Rewrite;
    if es != [] {
      AtMostOneWrapper(p, rls, es[0], context);
      AtMostOneInAll(p, rls, es[1..], context);
    }
  }

  lemma {:induction false} QualsHaveNone(p: Probe, rls: Oid, es: seq<Raw>)
    requires ProbeOk(p, rls) && CleanAll(p, rls, es)
    ensures DepthAll(p, WrapQuals(p, rls, es)) == 0 && LevelsOkAll(p, rls, WrapQuals(p, rls, es))
    ensures forall i | 0 <= i < |WrapQuals(p, rls, es)| :: WrapQuals(p, rls, es)[i].Call? && WrapQuals(p, rls, es)[i].funcid == rls
    decreases es
  {
    hide ProbeOk, Clean, Rewrite;
    if es != [] {
      AtMostOneWrapper(p, rls, es[0], false);
      One(p, rls, Rewrite(p, rls, es[0], false));
      QualsHaveNone(p, rls, es[1..]);
      RlsIsNotDirect(p, rls);
    }
  }

  lemma RlsIsNotDirect(p: Probe, rls: Oid)
    requires ProbeOk(p, rls)
    ensures rls != p.direct
  {
  }

  // ---------------------------------------------------------------- every watched predicate is wrapped

  /** A watched predicate of this level that no wrapper counts. */
  predicate Exposed(p: Probe, e: Raw)
    decreases e, 1
  {
    match e
    case Query(_, _) => false
    case Call(funcid, args) => funcid != p.direct && AnyExposed(p, args)
    case Node(_, _, args) => Candidate(e) || AnyExposed(p, args)
    case Var(_, _, _) => Candidate(e)
  }

  predicate AnyExposed(p: Probe, es: seq<Raw>)
    decreases es
  {
    es != [] && (Exposed(p, es[0]) || AnyExposed(p, es[1..]))
  }

  /** Rewriting at a query's top level leaves no watched predicate outside a wrapper, and hides no column. */
  lemma {:induction false} NothingExposed(p: Probe, rls: Oid, e: Raw, context: bool)
    ensures DirectVar(Rewrite(p, rls, e, context)) == DirectVar(e)
    ensures context ==> !Exposed(p, Rewrite(p, rls, e, context))
    decreases e, 1
  {
    hide AnyDirect, AnyExposed, RewriteAll, WrapQuals, Replaced;
    match e {
      case Var(_, _, _) => OneDirect(p, e);
      case Node(isPredicate, tag, args) =>
        NothingExposedInAll(p, rls, args, context);
        NothingExposedInAll(p, rls, args, false);
        OneDirect(p, Node(isPredicate, tag, RewriteAll(p, rls, args, false)));
      case Call(_, args) => NothingExposedInAll(p, rls, args, context);
      case Query(_, _) =>
    }
  }

  lemma OneDirect(p: Probe, e: Raw)
    ensures DirectVar(Call(p.direct, [e])) == DirectVar(e)
  {
    assert [e][1..] == [] && !AnyDirect([]);
    assert AnyDirect([e]) == DirectVar(e);
  }

  lemma {:induction false} NothingExposedInAll(p: Probe, rls: Oid, es: seq<Raw>, context: bool)
    ensures AnyDirect(RewriteAll(p, rls, es, context)) == AnyDirect(es)
    ensures context ==> !AnyExposed(p, RewriteAll(p, rls, es, context))
    decreases es
  {
    hide DirectVar, Exposed, Rewrite;
    if es != [] {
      NothingExposed(p, rls, es[0], context);
      NothingExposedInAll(p, rls, es[1..], context);
    }
  }

  // ---------------------------------------------------------------- and nothing else is

  /** The variables of this level, from left to right. */
  function Variables(e: Raw): seq<Raw>
    decreases e, 1
  {
    match e
    case Var(_, _, _) => [e]
    case Node(_, _, args) => VariablesOf(args)
    case Call(_, args) => VariablesOf(args)
    case Query(_, _) => []
  }

  function VariablesOf(es: seq<Raw>): seq<Raw>
    decreases es
  {
    if es == [] then [] else Variables(es[0]) + VariablesOf(es[1..])
  }

  ghost predicate HasWatched(vars: seq<Raw>) {
    exists v :: v in vars && v.Var? && v.direct
  }

  /** A Boolean variable that is watched, or a predicate node with a watched variable of its own level in it. */
  ghost predicate WatchedPredicate(e: Raw) {
    match e
    case Var(_, boolean, direct) => boolean && direct
    case Node(isPredicate, _, args) => isPredicate && HasWatched(VariablesOf(args))
    case _ => false
  }

  lemma {:induction false} DirectVarMeans(e: Raw)
    ensures DirectVar(e) <==> HasWatched(Variables(e))
    decreases e, 1
  {
    match e {
      case Var(_, _, _) => assert e in [e];
      case Node(_, _, args) => AnyDirectMeans(args);
      case Call(_, args) => AnyDirectMeans(args);
      case Query(_, _) =>
    }
  }

  lemma {:induction false} AnyDirectMeans(es: seq<Raw>)
    ensures AnyDirect(es) <==> HasWatched(VariablesOf(es))
    decreases es
  {
    hide DirectVar, Variables;
    if es != [] {
      DirectVarMeans(es[0]);
      AnyDirectMeans(es[1..]);
      EitherWatched(Variables(es[0]), VariablesOf(es[1..]));
    }
  }

  lemma EitherWatched(a: seq<Raw>, b: seq<Raw>)
    ensures HasWatched(a + b) <==> HasWatched(a) || HasWatched(b)
  {
    if v :| v in a && v.Var? && v.direct { assert v in a + b; }
    if v :| v in b && v.Var? && v.direct { assert v in a + b; }
  }

  lemma CandidateMeans(e: Raw)
    ensures Candidate(e) <==> WatchedPredicate(e)
  {
    if e.Node? { AnyDirectMeans(e.args); }
  }

  /** Every direct wrapper, in nested queries and qualifications too, is around one watched predicate. */
  ghost predicate WrapsWatched(p: Probe, e: Raw)
    decreases e, 1
  {
    match e
    case Var(_, _, _) => true
    case Node(_, _, args) => AllWrapWatched(p, args)
    case Call(funcid, args) => (funcid == p.direct ==> |args| == 1 && WatchedPredicate(args[0])) && AllWrapWatched(p, args)
    case Query(quals, parts) => AllWrapWatched(p, quals) && AllWrapWatched(p, parts)
  }

  ghost predicate AllWrapWatched(p: Probe, es: seq<Raw>)
    decreases es
  {
    es == [] || (WrapsWatched(p, es[0]) && AllWrapWatched(p, es[1..]))
  }

  /** Rewriting wraps watched predicates only, each by itself. */
  lemma {:induction false} OnlyWatchedWrapped(p: Probe, rls: Oid, e: Raw, context: bool)
    requires ProbeOk(p, rls) && Clean(p, rls, e)
    ensures WrapsWatched(p, Rewrite(p, rls, e, context))
    decreases e, 1
  {
    hide AllWrapWatched, RewriteAll, WrapQuals, Replaced, ProbeOk, AnyDirect, WatchedPredicate;
    match e {
      case Var(_, _, _) =>
        CandidateMeans(e);
        OneWrapsWatched(p, e);
      case Node(isPredicate, tag, args) =>
        OnlyWatchedWrappedAll(p, rls, args, context);
        OnlyWatchedWrappedAll(p, rls, args, false);
        NothingExposedInAll(p, rls, args, false);
        CandidateMeans(Node(isPredicate, tag, RewriteAll(p, rls, args, false)));
        OneWrapsWatched(p, Node(isPredicate, tag, RewriteAll(p, rls, args, false)));
      case Call(funcid, args) =>
        OnlyWatchedWrappedAll(p, rls, args, context);
        ReplacedIsNotDirect(p, rls, funcid);
      case Query(quals, parts) =>
        OnlyWatchedInQuals(p, rls, quals);
        OnlyWatchedWrappedAll(p, rls, parts, true);
    }
  }

  lemma OneWrapsWatched(p: Probe, e: Raw)
    ensures AllWrapWatched(p, [e]) == WrapsWatched(p, e)
  {
    assert [e][1..] == [];
  }

  lemma {:induction false} OnlyWatchedWrappedAll(p: Probe, rls: Oid, es: seq<Raw>, context: bool)
    requires ProbeOk(p, rls) && CleanAll(p, rls, es)
    ensures AllWrapWatched(p, RewriteAll(p, rls, es, context))
    decreases es
  {
    hide WrapsWatched, Rewrite, ProbeOk, Clean;
    if es != [] {
      OnlyWatchedWrapped(p, rls, es[0], context);
      OnlyWatchedWrappedAll(p, rls, es[1..], context);
    }
  }

  lemma {:induction false} OnlyWatchedInQuals(p: Probe, rls: Oid, es: seq<Raw>)
    requires ProbeOk(p, rls) && CleanAll(p, rls, es)
    ensures AllWrapWatched(p, WrapQuals(p, rls, es))
    decreases es
  {
    hide Rewrite, Clean, WatchedPredicate;
    if es != [] {
      OnlyWatchedWrapped(p, rls, es[0], false);
      OnlyWatchedInQuals(p, rls, es[1..]);
      OneWrapsWatched(p, Rewrite(p, rls, es[0], false));
      RlsIsNotDirect(p, rls);
    }
  }

  // ---------------------------------------------------------------- every mapped builtin is replaced

  ghost predicate NoBuiltin(p: Probe, e: Raw)
    decreases e, 1
  {
    match e
    case Var(_, _, _) => true
    case Node(_, _, args) => NoBuiltins(p, args)
    case Call(funcid, args) => (forall b <- p.builtins :: b.original != funcid) && NoBuiltins(p, args)
    case Query(quals, parts) => NoBuiltins(p, quals) && NoBuiltins(p, parts)
  }

  ghost predicate NoBuiltins(p: Probe, es: seq<Raw>)
    decreases es
  {
    es == [] || (NoBuiltin(p, es[0]) && NoBuiltins(p, es[1..]))
  }

  /** After rewriting, no call of a mapped builtin is left anywhere. */
  lemma {:induction false} NoBuiltinLeft(p: Probe, rls: Oid, e: Raw, context: bool)
    requires ProbeOk(p, rls)
    ensures NoBuiltin(p, Rewrite(p, rls, e, context))
    decreases e, 1
  {
    hide NoBuiltins, RewriteAll, WrapQuals, Candidate, ByReplacement, Replaced;
    match e {
      case Var(_, _, _) => OneBuiltin(p, e);
      case Node(isPredicate, tag, args) =>
        NoBuiltinsLeft(p, rls, args, context);
        NoBuiltinsLeft(p, rls, args, false);
        OneBuiltin(p, Node(isPredicate, tag, RewriteAll(p, rls, args, false)));
      case Call(funcid, args) =>
        NoBuiltinsLeft(p, rls, args, context);
        ReplacedIsNoBuiltin(p, funcid);
        NotACandidate(e);
      case Query(quals, parts) =>
        NotACandidate(e);
        NoBuiltinsInQuals(p, rls, quals);
        NoBuiltinsLeft(p, rls, parts, true);
    }
  }

  lemma ReplacedIsNoBuiltin(p: Probe, funcid: Oid)
    requires PrivateOids(p)
    ensures forall b <- p.builtins :: b.original != Replaced(p, funcid)
  {
  }

  lemma OneBuiltin(p: Probe, e: Raw)
    ensures NoBuiltins(p, [e]) == NoBuiltin(p, e)
  {
    assert [e][1..] == [];
  }

  lemma {:induction false} NoBuiltinsLeft(p: Probe, rls: Oid, es: seq<Raw>, context: bool)
    requires ProbeOk(p, rls)
    ensures NoBuiltins(p, RewriteAll(p, rls, es, context))
    decreases es
  {
    hide NoBuiltin, Rewrite, ProbeOk;
    if es != [] {
      NoBuiltinLeft(p, rls, es[0], context);
      NoBuiltinsLeft(p, rls, es[1..], context);
    }
  }

  lemma {:induction false} NoBuiltinsInQuals(p: Probe, rls: Oid, es: seq<Raw>)
    requires ProbeOk(p, rls)
    ensures NoBuiltins(p, WrapQuals(p, rls, es))
    decreases es
  {
    hide Rewrite;
    if es != [] {
      NoBuiltinLeft(p, rls, es[0], false);
      NoBuiltinsInQuals(p, rls, es[1..]);
      OneBuiltin(p, Rewrite(p, rls, es[0], false));
    }
  }

  // ---------------------------------------------------------------- nothing else changes

  /** Remove the wrappers and send every replacement back to its builtin, as the wrappers do when they run. */
  function Erase(p: Probe, rls: Oid, e: Raw): Raw
    decreases e, 1
  {
    match e
    case Var(_, _, _) => e
    case Node(isPredicate, tag, args) => Node(isPredicate, tag, EraseAll(p, rls, args))
    case Query(quals, parts) => Query(EraseAll(p, rls, quals), EraseAll(p, rls, parts))
    case Call(funcid, args) =>
      if (funcid == p.direct || funcid == rls) && |args| == 1 then Erase(p, rls, args[0])
      else
        var b := ByReplacement(p.builtins, funcid);
        Call(if b.Some? then b.value.original else funcid, EraseAll(p, rls, args))
  }

  function EraseAll(p: Probe, rls: Oid, es: seq<Raw>): seq<Raw>
    decreases es
  {
    if es == [] then [] else [Erase(p, rls, es[0])] + EraseAll(p, rls, es[1..])
  }

  /** Reading the wrappers as the identities they are gives back the query that was parsed. */
  lemma {:induction false} RewriteIsErasable(p: Probe, rls: Oid, e: Raw, context: bool)
    requires ProbeOk(p, rls) && Clean(p, rls, e)
    ensures Erase(p, rls, Rewrite(p, rls, e, context)) == e
    decreases e, 1
  {
    hide ProbeOk, EraseAll, CleanAll, RewriteAll, WrapQuals, Candidate, Replaced, ByReplacement;
    match e {
      case Var(_, _, _) =>
      case Node(_, _, args) =>
        AllErasable(p, rls, args, context);
        AllErasable(p, rls, args, false);
      case Call(funcid, args) =>
        NotACandidate(e);
        AllErasable(p, rls, args, context);
        ReplacedIsNotDirect(p, rls, funcid);
        ReplacedComesBack(p, rls, funcid);
      case Query(quals, parts) =>
        NotACandidate(e);
        AllErasable(p, rls, parts, true);
        QualsErasable(p, rls, quals);
    }
  }

  lemma ReplacedComesBack(p: Probe, rls: Oid, funcid: Oid)
    requires ProbeOk(p, rls) && ByReplacement(p.builtins, funcid).None?
    ensures
      var b := ByReplacement(p.builtins, Replaced(p, funcid));
      (if b.Some? then b.value.original else Replaced(p, funcid)) == funcid
  {
    var b := ByOriginal(p.builtins, funcid);
    if b.Some? {
      RoundTrip(p, b.value);
    }
  }

  lemma {:induction false} AllErasable(p: Probe, rls: Oid, es: seq<Raw>, context: bool)
    requires ProbeOk(p, rls) && CleanAll(p, rls, es)
    ensures EraseAll(p, rls, RewriteAll(p, rls, es, context)) == es
    decreases es
  {
    hide ProbeOk, Erase, Clean, Rewrite;
    if es != [] {
      RewriteIsErasable(p, rls, es[0], context);
      AllErasable(p, rls, es[1..], context);
    }
  }

  lemma {:induction false} QualsErasable(p: Probe, rls: Oid, es: seq<Raw>)
    requires ProbeOk(p, rls) && CleanAll(p, rls, es)
    ensures EraseAll(p, rls, WrapQuals(p, rls, es)) == es
    decreases es
  {
    hide ProbeOk, Clean, Rewrite;
    if es != [] {
      RewriteIsErasable(p, rls, es[0], false);
      QualsErasable(p, rls, es[1..]);
    }
  }
}
