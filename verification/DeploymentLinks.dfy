/** Resolving a portable link to a saved account (apps/app-desktop/src/deployment-links.ts). */
module DeploymentLinks {
  import opened Options
  import opened SavedAccounts

  datatype Choice = Choice(deployment: Deployment, target: Target, accountCount: nat)
  datatype Resolution =
    | UnknownDeployment
    | UnsupportedBasePath(targets: seq<Target>)
    | ChooseTarget(deployments: seq<Choice>)
    | ChooseAccount(target: Target, accounts: seq<AccountKey>)
    | Account(target: Target, accountKey: AccountKey)

  function AtOrigin(origin: nat): Entry -> bool {
    (e: Entry) => e.target.appUrl.Url? && e.target.appUrl.origin == origin
  }

  function Unsupported(): Entry -> bool {
    (e: Entry) => e.target.appUrl.Url? && !e.target.appUrl.root
  }

  /** The distinct deployments of some entries, first occurrences first. */
  function Deployments(es: seq<Entry>): seq<Deployment> {
    if es == [] then []
    else
      var ds := Deployments(es[..|es| - 1]);
      var d := es[|es| - 1].target.deployment;
      if d in ds then ds else ds + [d]
  }

  function OfDeployment(d: Deployment): Entry -> bool {
    (e: Entry) => e.target.deployment == d
  }

  /** `resolveDeploymentLink`, from the entries at the link's origin alone; `None` is a link that is not an exact root. */
  function Resolve(origin: Option<nat>, entries: seq<Entry>, active: map<Deployment, AccountKey>): Resolution {
    if origin.None? then UnknownDeployment
    else
      var here := Filter(entries, AtOrigin(origin.value));
      if Filter(here, Unsupported()) != [] then UnsupportedBasePath(Targets(Filter(here, Unsupported())))
      else if here == [] then UnknownDeployment
      else
        var ds := Deployments(here);
        if |ds| > 1 then ChooseTarget(seq(|ds|, i requires 0 <= i < |ds| => ChoiceOf(here, ds[i])))
        else
          var d := here[0].target.deployment;
          if d in active && active[d] in Keys(here) then Account(here[0].target, active[d])
          else if |here| == 1 then Account(here[0].target, KeyOf(here[0]))
          else ChooseAccount(here[0].target, Keys(here))
  }

  function ChoiceOf(here: seq<Entry>, d: Deployment): Choice {
    var es := Filter(here, OfDeployment(d));
    Choice(d, if es != [] then es[0].target else Target(d, false, Unparsable), |es|)
  }

  /** One target for each deployment, the last one seen, as in `new Map(...)`. */
  function Targets(es: seq<Entry>): seq<Target> {
    var ds := Deployments(es);
    seq(|ds|, i requires 0 <= i < |ds| => LastTarget(es, ds[i]))
  }

  function LastTarget(es: seq<Entry>, d: Deployment): Target {
    var own := Filter(es, OfDeployment(d));
    if own != [] then own[|own| - 1].target else Target(d, false, Unparsable)
  }

  // ---------------------------------------------------------------- facts about deployments

  lemma {:induction false} DeploymentsIn(es: seq<Entry>)
    ensures forall d :: d in Deployments(es) <==> exists e :: e in es && e.target.deployment == d
    ensures Distinct(Deployments(es))
    ensures es != [] ==> Deployments(es) != [] && Deployments(es)[0] == es[0].target.deployment
    decreases |es|
  {
    if es != [] {
      var n := |es| - 1;
      DeploymentsIn(es[..n]);
      assert es == es[..n] + [es[n]];
      forall d ensures d in Deployments(es) <==> exists e :: e in es && e.target.deployment == d {
        if exists e :: e in es && e.target.deployment == d {
          var e :| e in es && e.target.deployment == d;
          assert e in es[..n] || e == es[n];
        }
        if d in Deployments(es[..n]) {
          var e :| e in es[..n] && e.target.deployment == d;
          assert e in es;
        }
        assert es[n] in es;
      }
      if n == 0 { assert es[..n] == []; } else { assert es[..n][0] == es[0]; }
    }
  }

  /** All entries belong to one deployment. */
  ghost predicate OneDeployment(es: seq<Entry>) {
    forall a, b | a in es && b in es :: a.target.deployment == b.target.deployment
  }

  lemma SingleDeployment(es: seq<Entry>)
    requires es != []
    ensures |Deployments(es)| <= 1 <==> OneDeployment(es)
  {
    DeploymentsIn(es);
    var ds := Deployments(es);
    if |ds| > 1 {
      assert ds[0] in ds && ds[1] in ds && ds[0] != ds[1];
      var a :| a in es && a.target.deployment == ds[0];
      var b :| b in es && b.target.deployment == ds[1];
      assert !OneDeployment(es);
    } else {
      forall a, b | a in es && b in es ensures a.target.deployment == b.target.deployment {
        assert a.target.deployment in ds && b.target.deployment in ds;
      }
    }
  }

  // ---------------------------------------------------------------- what a resolution means

  /** The entries whose application lives at the link's origin. */
  function Here(origin: nat, entries: seq<Entry>): seq<Entry> {
    Filter(entries, AtOrigin(origin))
  }

  /**
   * The answer is one account if and only if everything saved at exactly this origin is at its root
   * and belongs to one deployment, and the account is that deployment's active one there, or, when
   * no saved account there is active, the only one.
   */
  lemma AccountExactlyWhen(origin: nat, entries: seq<Entry>, active: map<Deployment, AccountKey>, key: AccountKey)
    ensures
      var here := Here(origin, entries);
      var r := Resolve(Some(origin), entries, active);
      (r.Account? && r.accountKey == key) <==>
        && here != [] && (forall e <- here :: e.target.appUrl.root) && OneDeployment(here)
        && (if HasActive(here, active) then active[here[0].target.deployment] == key
            else |here| == 1 && KeyOf(here[0]) == key)
  {
    var here := Here(origin, entries);
    NoneUnsupported(here);
    if here != [] {
      SingleDeployment(here);
      assert here[0] in here;
    }
    hide Filter, Deployments;
  }

  /** The first entry's deployment has an active account among the entries here. */
  predicate HasActive(here: seq<Entry>, active: map<Deployment, AccountKey>) {
    here != [] && here[0].target.deployment in active && active[here[0].target.deployment] in Keys(here)
  }

  lemma NoneUnsupported(here: seq<Entry>)
    requires forall e <- here :: e.target.appUrl.Url?
    ensures Filter(here, Unsupported()) == [] <==> forall e <- here :: e.target.appUrl.root
  {
    if Filter(here, Unsupported()) != [] {
      assert Filter(here, Unsupported())[0] in Filter(here, Unsupported());
    } else {
      forall e | e in here ensures e.target.appUrl.root {
        assert e !in Filter(here, Unsupported());
      }
    }
  }

  /** The application is at its origin, and not at its root. */
  predicate BelowRoot(e: Entry) {
    e.target.appUrl.Url? && !e.target.appUrl.root
  }

  ghost predicate SomeBelowRoot(here: seq<Entry>) {
    exists e :: e in here && BelowRoot(e)
  }

  /** One target for each deployment that has an account here below the root: that of its last such account. */
  ghost predicate BelowRootTargets(here: seq<Entry>, targets: seq<Target>) {
    && (forall i, j | 0 <= i < |targets| && 0 <= j < |targets| :: targets[i].deployment == targets[j].deployment ==> i == j)
    && (forall t <- targets :: exists k :: LastBelowRoot(here, k) && here[k].target == t)
    && (forall k | LastBelowRoot(here, k) :: here[k].target in targets)
  }

  ghost predicate LastBelowRoot(here: seq<Entry>, k: int) {
    && 0 <= k < |here| && BelowRoot(here[k])
    && forall m | k < m < |here| :: !BelowRoot(here[m]) || here[m].target.deployment != here[k].target.deployment
  }

  /**
   * The other answers, exactly: the link is not a root, or nothing is known at its origin; something there is below the root; more
   * than one deployment is there; or one deployment with several accounts, none of them its active one,
   * and then all of them are offered.
   */
  lemma ResolvesExactlyWhen(origin: Option<nat>, entries: seq<Entry>, active: map<Deployment, AccountKey>)
    ensures
      var here := if origin.Some? then Here(origin.value, entries) else [];
      match Resolve(origin, entries, active)
      case UnknownDeployment => here == []
      case UnsupportedBasePath(targets) => SomeBelowRoot(here) && BelowRootTargets(here, targets)
      case ChooseTarget(_) => !SomeBelowRoot(here) && !OneDeployment(here)
      case ChooseAccount(target, accounts) =>
        && !SomeBelowRoot(here) && OneDeployment(here) && !HasActive(here, active) && |here| > 1
        && target == here[0].target && accounts == Keys(here)
      case Account(target, _) =>
        !SomeBelowRoot(here) && OneDeployment(here) && here != [] && target == here[0].target && (HasActive(here, active) || |here| == 1)
  {
    var here := if origin.Some? then Here(origin.value, entries) else [];
    NoneUnsupported(here);
    if here != [] { SingleDeployment(here); }
    BelowRootMeans(here);
    hide Filter, Deployments, Targets, BelowRootTargets, OneDeployment;
  }

  lemma BelowRootMeans(here: seq<Entry>)
    ensures BelowRootTargets(here, Targets(Below(here)))
  {
    var below := Below(here);
    var ds, targets := Deployments(below), Targets(below);
    DeploymentsIn(below);
    hide Deployments, LastTarget, Below;
    forall i | 0 <= i < |targets|
      ensures targets[i].deployment == ds[i] && exists k :: LastBelowRoot(here, k) && here[k].target == targets[i]
    {
      assert ds[i] in ds;
      LastIsLast(here, ds[i]);
    }
    forall k | LastBelowRoot(here, k) ensures here[k].target in targets {
      LastIsBelow(here, k);
      var d := here[k].target.deployment;
      assert d in ds;
      var i :| 0 <= i < |ds| && ds[i] == d;
      LastIsLast(here, d);
      var m :| LastBelowRoot(here, m) && here[m].target == LastTarget(below, d);
      OneLast(here, k, m);
      assert targets[i] == here[k].target;
    }
  }

  lemma LastIsBelow(here: seq<Entry>, k: int)
    requires LastBelowRoot(here, k)
    ensures 0 <= k < |here| && here[k] in Below(here)
  {
  }

  lemma OneLast(here: seq<Entry>, k: int, m: int)
    requires LastBelowRoot(here, k) && LastBelowRoot(here, m) && here[k].target.deployment == here[m].target.deployment
    ensures k == m
  {
  }

  /** `t` is the target of the last account below the root of its deployment. */
  ghost predicate IsLastBelow(here: seq<Entry>, t: Target) {
    exists k :: LastBelowRoot(here, k) && here[k].target == t
  }

  ghost predicate HasDeployment(es: seq<Entry>, d: Deployment) {
    exists e :: e in es && e.target.deployment == d
  }

  /** The entries below the root, as the filter finds them. */
  function Below(here: seq<Entry>): seq<Entry> {
    Filter(here, Unsupported())
  }

  /** The last of a deployment's accounts below the root is found by filtering twice. */
  lemma {:induction false} LastIsLast(here: seq<Entry>, d: Deployment)
    requires HasDeployment(Below(here), d)
    ensures IsLastBelow(here, LastTarget(Below(here), d)) && LastTarget(Below(here), d).deployment == d
    decreases |here|
  {
    hide HasDeployment, Below, LastTarget, IsLastBelow, BelowRoot;
    NotEmpty(here, d);
    var before, e := here[..|here| - 1], here[|here| - 1];
    assert here == before + [e];
    BelowSnoc(before, e);
    LastOfSnoc(Below(before), e, d);
    if BelowRoot(e) && e.target.deployment == d {
      NewLast(here);
    } else {
      NotTheLast(Below(before), e, d);
      LastIsLast(before, d);
      LaterLast(here, LastTarget(Below(before), d));
    }
  }

  lemma NotTheLast(before: seq<Entry>, e: Entry, d: Deployment)
    ensures HasDeployment(before + [e], d) && e.target.deployment != d ==> HasDeployment(before, d)
  {
  }

  lemma NewLast(here: seq<Entry>)
    requires here != [] && BelowRoot(here[|here| - 1])
    ensures IsLastBelow(here, here[|here| - 1].target)
  {
    assert LastBelowRoot(here, |here| - 1);
  }

  lemma NotEmpty(here: seq<Entry>, d: Deployment)
    requires HasDeployment(Below(here), d)
    ensures here != []
  {
  }

  lemma BelowSnoc(before: seq<Entry>, e: Entry)
    ensures Below(before + [e]) == if BelowRoot(e) then Below(before) + [e] else Below(before)
  {
    FilterAppend(before, [e], Unsupported());
  }

  lemma LaterLast(here: seq<Entry>, t: Target)
    requires here != [] && IsLastBelow(here[..|here| - 1], t)
    requires !BelowRoot(here[|here| - 1]) || here[|here| - 1].target.deployment != t.deployment
    ensures IsLastBelow(here, t)
  {
    var n := |here| - 1;
    var k :| LastBelowRoot(here[..n], k) && here[..n][k].target == t;
    forall m | k < m < |here| ensures !BelowRoot(here[m]) || here[m].target.deployment != here[k].target.deployment {
      if m < n { assert here[..n][m] == here[m]; }
    }
    assert LastBelowRoot(here, k);
  }

  lemma LastOfSnoc(before: seq<Entry>, e: Entry, d: Deployment)
    ensures LastTarget(before + [e], d) == if e.target.deployment == d then e.target else LastTarget(before, d)
    ensures before + [] == before
  {
    FilterAppend(before, [e], OfDeployment(d));
  }

  /** Asked to choose a deployment, the user sees each one at this origin exactly once, with all its accounts counted. */
  lemma EveryDeploymentIsOffered(origin: nat, entries: seq<Entry>, active: map<Deployment, AccountKey>)
    requires Resolve(Some(origin), entries, active).ChooseTarget?
    ensures
      var offered := Resolve(Some(origin), entries, active).deployments;
      && |offered| > 1
      && (forall i, j | 0 <= i < |offered| && 0 <= j < |offered| :: offered[i].deployment == offered[j].deployment ==> i == j)
      && (forall e <- Here(origin, entries) :: exists i :: 0 <= i < |offered| && offered[i].deployment == e.target.deployment)
      && (forall i | 0 <= i < |offered| ::
            && offered[i].accountCount == |Filter(Here(origin, entries), OfDeployment(offered[i].deployment))| > 0
            && offered[i].target.deployment == offered[i].deployment)
  {
    var here := Here(origin, entries);
    var ds := Deployments(here);
    var offered := Resolve(Some(origin), entries, active).deployments;
    DeploymentsIn(here);
    OfferedInOrder(origin, entries, active);
    hide Resolve, Deployments, ChoiceOf, Filter;
    forall e | e in here ensures exists i :: 0 <= i < |offered| && offered[i].deployment == e.target.deployment {
      assert e.target.deployment in ds;
      var i :| 0 <= i < |ds| && ds[i] == e.target.deployment;
      assert offered[i].deployment == ds[i];
    }
    forall i | 0 <= i < |offered|
      ensures offered[i].accountCount == |Filter(here, OfDeployment(ds[i]))| > 0 && offered[i].target.deployment == ds[i]
    {
      assert ds[i] in ds;
      var e :| e in here && e.target.deployment == ds[i];
      ChoiceCounts(here, e);
    }
  }

  lemma OfferedInOrder(origin: nat, entries: seq<Entry>, active: map<Deployment, AccountKey>)
    requires Resolve(Some(origin), entries, active).ChooseTarget?
    ensures
      var here, offered := Here(origin, entries), Resolve(Some(origin), entries, active).deployments;
      && |offered| == |Deployments(here)| > 1
      && forall i | 0 <= i < |offered| :: offered[i] == ChoiceOf(here, Deployments(here)[i])
  {
    hide Deployments, ChoiceOf, Filter;
  }

  /** The choice for an entry's deployment counts that entry, and is a target of that deployment. */
  lemma ChoiceCounts(here: seq<Entry>, e: Entry)
    requires e in here
    ensures
      var d := e.target.deployment;
      var choice := ChoiceOf(here, d);
      && choice.deployment == choice.target.deployment == d
      && choice.accountCount == |Filter(here, OfDeployment(d))| > 0
  {
    var own := Filter(here, OfDeployment(e.target.deployment));
    assert e in own && own[0] in own;
  }

  /** With a well-formed store the account is a saved one of the answered target's deployment. */
  lemma AccountIsSaved(origin: nat, s: Store)
    requires WellFormed(s) && Resolve(Some(origin), s.entries, s.active).Account?
    ensures
      var r := Resolve(Some(origin), s.entries, s.active);
      exists e :: e in s.entries && KeyOf(e) == r.accountKey && e.target.deployment == r.target.deployment
                  && e.target.appUrl == Url(origin, true)
  {
    var r := Resolve(Some(origin), s.entries, s.active);
    var here := Here(origin, s.entries);
    AccountExactlyWhen(origin, s.entries, s.active, r.accountKey);
    var i :| 0 <= i < |here| && KeyOf(here[i]) == r.accountKey;
    assert here[i] in here && here[0] in here;
    hide Filter, Deployments;
  }

  lemma {:induction false} FilterTwice(es: seq<Entry>, p: Entry -> bool, q: Entry -> bool)
    requires forall e <- es :: p(e) ==> q(e)
    ensures Filter(Filter(es, q), p) == Filter(es, p)
  {
    if es != [] {
      assert es[0] in es;
      FilterTwice(es[1..], p, q);
      FilterAppend(if q(es[0]) then [es[0]] else [], Filter(es[1..], q), p);
      FilterOne(es[0], p);
    }
  }

  /** Accounts saved for other origins, in whatever number and order, never change the answer. */
  lemma OtherOriginsDoNotMatter(origin: nat, entries: seq<Entry>, others: seq<Entry>, active: map<Deployment, AccountKey>,
                                active': map<Deployment, AccountKey>)
    requires Here(origin, entries) == Here(origin, others)
    requires forall e <- Here(origin, entries) :: Lookup(active, e.target.deployment) == Lookup(active', e.target.deployment)
    ensures Resolve(Some(origin), entries, active) == Resolve(Some(origin), others, active')
  {
    var here := Here(origin, entries);
    if here != [] {
      assert here[0] in here;
    }
    hide Filter, Deployments;
  }

  /** In particular the answer is that of the entries at the origin alone. */
  lemma OnlyThisOriginMatters(origin: nat, entries: seq<Entry>, active: map<Deployment, AccountKey>)
    ensures Resolve(Some(origin), entries, active) == Resolve(Some(origin), Here(origin, entries), active)
  {
    FilterTwice(entries, AtOrigin(origin), AtOrigin(origin));
    OtherOriginsDoNotMatter(origin, entries, Here(origin, entries), active, active);
  }

  /** Entries are added one by one, each at some position. */
  function Inserted(entries: seq<Entry>, added: seq<(nat, Entry)>): seq<Entry>
    decreases |added|
  {
    if added == [] then entries
    else
      var k := if added[0].0 <= |entries| then added[0].0 else |entries|;
      Inserted(entries[..k] + [added[0].1] + entries[k..], added[1..])
  }

  lemma OneInsertedElsewhere(origin: nat, a: seq<Entry>, e: Entry, b: seq<Entry>)
    requires !AtOrigin(origin)(e)
    ensures Here(origin, a + [e] + b) == Here(origin, a + b)
  {
    FilterOne(e, AtOrigin(origin));
    hide Filter;
    FilterAppend(a + [e], b, AtOrigin(origin));
    FilterAppend(a, [e], AtOrigin(origin));
    FilterAppend(a, b, AtOrigin(origin));
    assert Here(origin, a) + [] == Here(origin, a);
  }

  lemma {:induction false} InsertedElsewhere(origin: nat, entries: seq<Entry>, added: seq<(nat, Entry)>)
    requires forall a <- added :: !AtOrigin(origin)(a.1)
    ensures Here(origin, Inserted(entries, added)) == Here(origin, entries)
    decreases |added|
  {
    hide Filter;
    if added != [] {
      var k := if added[0].0 <= |entries| then added[0].0 else |entries|;
      assert added[0] in added;
      assert entries == entries[..k] + entries[k..];
      OneInsertedElsewhere(origin, entries[..k], added[0].1, entries[k..]);
      InsertedElsewhere(origin, entries[..k] + [added[0].1] + entries[k..], added[1..]);
    }
  }

  /**
   * Saving accounts of other origins, any number, anywhere in the list, and making them active
   * never changes how a link of this origin resolves.
   */
  lemma AddingElsewhereChangesNothing(origin: nat, entries: seq<Entry>, active: map<Deployment, AccountKey>,
                                      added: seq<(nat, Entry)>, activated: map<Deployment, AccountKey>)
    requires forall a <- added :: !AtOrigin(origin)(a.1)
    requires forall e <- Here(origin, entries) :: e.target.deployment !in activated
    ensures Resolve(Some(origin), Inserted(entries, added), active + activated) == Resolve(Some(origin), entries, active)
  {
    hide Resolve, Filter, Inserted;
    InsertedElsewhere(origin, entries, added);
    OtherOriginsDoNotMatter(origin, entries, Inserted(entries, added), active, active + activated);
  }

  // ---------------------------------------------------------------- the loops

  /** The first loop: entries at the origin, split into supported ones and targets with a base path. */
  method Collect(origin: nat, entries: seq<Entry>) returns (sameOrigin: seq<Entry>, unsupported: seq<Entry>)
    ensures unsupported == Filter(Here(origin, entries), Unsupported())
    ensures unsupported == [] ==> sameOrigin == Here(origin, entries)
  {
    sameOrigin, unsupported := [], [];
    for i := 0 to |entries|
      invariant unsupported == Filter(Here(origin, entries[..i]), Unsupported())
      invariant unsupported == [] ==> sameOrigin == Here(origin, entries[..i])
    {
      var e := entries[i];
      OneMoreHere(origin, entries, i);
      var url := e.target.appUrl;
      if url.Unparsable? || url.origin != origin { continue; }
      if !url.root { unsupported := unsupported + [e]; continue; }
      sameOrigin := sameOrigin + [e];
    }
    assert entries[..|entries|] == entries;
  }

  lemma OneMoreHere(origin: nat, entries: seq<Entry>, i: nat)
    requires i < |entries|
    ensures
      var e := entries[i];
      var before, after := Here(origin, entries[..i]), Here(origin, entries[..i + 1]);
      && after == before + (if AtOrigin(origin)(e) then [e] else [])
      && Filter(after, Unsupported()) == Filter(before, Unsupported()) + (if AtOrigin(origin)(e) && Unsupported()(e) then [e] else [])
  {
    var e := entries[i];
    assert entries[..i + 1] == entries[..i] + [e];
    FilterAppend(entries[..i], [e], AtOrigin(origin));
    FilterOne(e, AtOrigin(origin));
    FilterAppend(Here(origin, entries[..i]), [e], Unsupported());
    FilterOne(e, Unsupported());
    hide Filter;
    assert Here(origin, entries[..i]) + [] == Here(origin, entries[..i]);
  }

  /** `byDeployment`'s keys, in insertion order. */
  method DistinctDeployments(es: seq<Entry>) returns (ds: seq<Deployment>)
    ensures ds == Deployments(es)
  {
    ds := [];
    for i := 0 to |es|
      invariant ds == Deployments(es[..i])
    {
      assert es[..i + 1][..i] == es[..i];
      if es[i].target.deployment !in ds { ds := ds + [es[i].target.deployment]; }
    }
    assert es[..|es|] == es;
  }

  method ResolveLink(origin: Option<nat>, entries: seq<Entry>, active: map<Deployment, AccountKey>) returns (r: Resolution)
    ensures r == Resolve(origin, entries, active)
    ensures origin.Some? ==> r == Resolve(origin, Here(origin.value, entries), active)
  {
    if origin.Some? { OnlyThisOriginMatters(origin.value, entries, active); }
    hide Filter, Deployments;
    if origin.None? { return UnknownDeployment; }
    var sameOrigin, unsupported := Collect(origin.value, entries);
    if unsupported != [] { return UnsupportedBasePath(Targets(unsupported)); }
    if sameOrigin == [] { return UnknownDeployment; }
    var ds := DistinctDeployments(sameOrigin);
    if |ds| > 1 {
      return ChooseTarget(seq(|ds|, i requires 0 <= i < |ds| => ChoiceOf(sameOrigin, ds[i])));
    }
    var first := sameOrigin[0].target;
    if first.deployment in active && active[first.deployment] in Keys(sameOrigin) {
      return Account(first, active[first.deployment]);
    }
    if |sameOrigin| == 1 { return Account(first, KeyOf(sameOrigin[0])); }
    return ChooseAccount(first, Keys(sameOrigin));
  }
}
