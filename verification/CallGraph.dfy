/**
 * The call-graph counters of scripts/crm/permission-probe.c: `probe_hook` and `crm_probe_direct`
 * as steps on bounded tables, against the unbounded record of everything that happened.
 */
module CallGraph {
  type Oid = nat
  const INVALID_OID: Oid := 0
  const MAX_ENTRIES := 8192
  const MAX_EDGES := 4096
  const MAX_DEPTH := 1024

  // ---------------------------------------------------------------- a table of counters

  /** One array slot: what is counted, and how often. */
  datatype Counter<K> = Counter(key: K, calls: nat)

  /** The search loop: the slot of `k`, or the number of slots in use. */
  function IndexOf<K(==)>(h: seq<Counter<K>>, k: K): (i: nat)
    ensures i <= |h| && (i < |h| ==> h[i].key == k)
    ensures forall j | 0 <= j < i :: h[j].key != k
  {
    if h == [] then 0 else if h[0].key == k then 0 else 1 + IndexOf(h[1..], k)
  }

  function Bump<K(==)>(h: seq<Counter<K>>, k: K): seq<Counter<K>> {
    var i := IndexOf(h, k);
    if i < |h| then h[i := Counter(k, h[i].calls + 1)] else h + [Counter(k, 1)]
  }

  /** The table has one slot for each key that occurred, holding how often it did. */
  ghost predicate Counts<K(!new)>(h: seq<Counter<K>>, ks: seq<K>) {
    && (forall i, j | 0 <= i < |h| && 0 <= j < |h| :: h[i].key == h[j].key ==> i == j)
    && (forall i | 0 <= i < |h| :: h[i].calls == multiset(ks)[h[i].key] > 0)
    && (forall k <- ks :: exists i :: 0 <= i < |h| && h[i].key == k)
  }

  lemma BumpCounts<K(!new)>(h: seq<Counter<K>>, ks: seq<K>, k: K)
    requires Counts(h, ks)
    ensures Counts(Bump(h, k), ks + [k])
  {
    var i := IndexOf(h, k);
    var b := Bump(h, k);
    if i == |h| {
      assert k !in ks;
    }
    forall x <- ks + [k] ensures exists j :: 0 <= j < |b| && b[j].key == x {
      if x == k {
        assert b[i].key == x;
      } else {
        assert x in ks;
        var j :| 0 <= j < |h| && h[j].key == x;
        assert b[j].key == x;
      }
    }
  }

  /** The calls of the slots that satisfy `p`, summed. */
  ghost function SumWhere<K>(h: seq<Counter<K>>, p: K -> bool): nat {
    if h == [] then 0 else (if p(h[0].key) then h[0].calls else 0) + SumWhere(h[1..], p)
  }

  lemma {:induction false} SumAppend<K>(h: seq<Counter<K>>, c: Counter<K>, p: K -> bool)
    ensures SumWhere(h + [c], p) == SumWhere(h, p) + if p(c.key) then c.calls else 0
  {
    if h == [] {
      assert h + [c] == [c] && [c][1..] == [];
    } else {
      assert (h + [c])[1..] == h[1..] + [c];
      SumAppend(h[1..], c, p);
    }
  }

  lemma {:induction false} SumUpdate<K>(h: seq<Counter<K>>, i: nat, c: Counter<K>, p: K -> bool)
    requires i < |h| && c.key == h[i].key && c.calls == h[i].calls + 1
    ensures SumWhere(h[i := c], p) == SumWhere(h, p) + if p(c.key) then 1 else 0
  {
    if i > 0 {
      assert h[i := c][1..] == h[1..][i - 1 := c];
      SumUpdate(h[1..], i - 1, c, p);
    } else {
      assert h[0 := c][1..] == h[1..];
    }
  }

  lemma SumBump<K>(h: seq<Counter<K>>, k: K, p: K -> bool)
    ensures SumWhere(Bump(h, k), p) == SumWhere(h, p) + if p(k) then 1 else 0
  {
    var i := IndexOf(h, k);
    if i < |h| {
      SumUpdate(h, i, Counter(k, h[i].calls + 1), p);
    } else {
      SumAppend(h, Counter(k, 1), p);
    }
  }

  // ---------------------------------------------------------------- the probe

  datatype Edge = Edge(root: Oid, caller: Oid, callee: Oid)
  datatype Site = Site(root: Oid, caller: Oid)

  datatype Probe = Probe(
    enabled: bool,
    entries: seq<Counter<Oid>>,
    edges: seq<Counter<Edge>>,
    callStack: seq<Oid>,
    directEdges: seq<Counter<Site>>,
    directPredicates: nat)

  /** `start_probe`. */
  const STARTED := Probe(true, [], [], [], [], 0)

  /** A public function starts, ends or aborts; a wrapped predicate has been evaluated. */
  datatype Event = Start(oid: Oid) | Leave(oid: Oid) | Direct

  function Caller(stack: seq<Oid>): Oid {
    if stack == [] then INVALID_OID else stack[|stack| - 1]
  }

  function EdgeFor(stack: seq<Oid>, oid: Oid): Edge {
    Edge(if stack == [] then oid else stack[0], Caller(stack), oid)
  }

  function SiteOf(stack: seq<Oid>): Site {
    Site(if stack == [] then INVALID_OID else stack[0], Caller(stack))
  }

  function OnStart(g: Probe, oid: Oid): Probe {
    if IndexOf(g.entries, oid) == MAX_ENTRIES then g.(enabled := false)
    else
      var n := g.(entries := Bump(g.entries, oid));
      var edge := EdgeFor(g.callStack, oid);
      if IndexOf(g.edges, edge) == MAX_EDGES || |g.callStack| == MAX_DEPTH then n.(enabled := false)
      else n.(edges := Bump(g.edges, edge), callStack := g.callStack + [oid])
  }

  function OnLeave(g: Probe, oid: Oid): Probe {
    if g.callStack == [] || Caller(g.callStack) != oid then g.(enabled := false)
    else g.(callStack := g.callStack[..|g.callStack| - 1])
  }

  function OnDirect(g: Probe): Probe {
    var n := g.(directPredicates := g.directPredicates + 1);
    var site := SiteOf(g.callStack);
    if IndexOf(g.directEdges, site) == MAX_EDGES then n.(enabled := false)
    else n.(directEdges := Bump(g.directEdges, site))
  }

  function Step(g: Probe, e: Event): Probe {
    if !g.enabled then g
    else match e
      case Start(oid) => OnStart(g, oid)
      case Leave(oid) => OnLeave(g, oid)
      case Direct => OnDirect(g)
  }

  function Run(es: seq<Event>): Probe {
    if es == [] then STARTED else Step(Run(es[..|es| - 1]), es[|es| - 1])
  }

  // ---------------------------------------------------------------- what happened

  /** Everything that happened, with no bound on anything. */
  datatype Log = Log(started: seq<Oid>, edges: seq<Edge>, sites: seq<Site>, stack: seq<Oid>, nested: bool)

  /** A function starts: the outermost one that runs is its root, itself if none does, and the innermost its caller. */
  function Called(stack: seq<Oid>, oid: Oid): Edge {
    Edge((stack + [oid])[0], if |stack| > 0 then stack[|stack| - 1] else 0, oid)
  }

  /** A predicate is evaluated inside the innermost function that runs, under the outermost; or inside none. */
  function EvaluatedIn(stack: seq<Oid>): Site {
    if |stack| > 0 then Site(stack[0], stack[|stack| - 1]) else Site(0, 0)
  }

  /** The function left is the innermost one that runs. */
  predicate LeavesInnermost(stack: seq<Oid>, oid: Oid) {
    |stack| > 0 && stack[|stack| - 1] == oid
  }

  function LogStep(l: Log, e: Event): Log {
    match e
    case Start(oid) =>
      l.(started := l.started + [oid], edges := l.edges + [Called(l.stack, oid)], stack := l.stack + [oid])
    case Leave(oid) => if LeavesInnermost(l.stack, oid) then l.(stack := l.stack[..|l.stack| - 1]) else l.(nested := false)
    case Direct => l.(sites := l.sites + [EvaluatedIn(l.stack)])
  }

  function LogOf(es: seq<Event>): Log {
    if es == [] then Log([], [], [], [], true) else LogStep(LogOf(es[..|es| - 1]), es[|es| - 1])
  }

  /** The tables of an enabled probe are exact. */
  ghost predicate Exact(g: Probe, l: Log) {
    && Counts(g.entries, l.started) && Counts(g.edges, l.edges) && Counts(g.directEdges, l.sites)
    && g.callStack == l.stack && l.nested && g.directPredicates == |l.sites|
  }

  ghost predicate WithinBounds(g: Probe) {
    |g.entries| <= MAX_ENTRIES && |g.edges| <= MAX_EDGES && |g.callStack| <= MAX_DEPTH && |g.directEdges| <= MAX_EDGES
  }

  lemma StepExact(g: Probe, l: Log, e: Event)
    requires g.enabled && Exact(g, l) && Step(g, e).enabled
    ensures Exact(Step(g, e), LogStep(l, e))
  {
    hide Counts, Bump;
    match e {
      case Start(oid) =>
        BumpCounts(g.entries, l.started, oid);
        BumpCounts(g.edges, l.edges, Called(l.stack, oid));
      case Leave(_) =>
      case Direct => BumpCounts(g.directEdges, l.sites, EvaluatedIn(l.stack));
    }
  }

  lemma {:induction false} RunExact(es: seq<Event>)
    requires Run(es).enabled
    ensures Exact(Run(es), LogOf(es))
  {
    if es != [] {
      hide Exact;
      RunExact(es[..|es| - 1]);
      StepExact(Run(es[..|es| - 1]), LogOf(es[..|es| - 1]), es[|es| - 1]);
    }
  }

  lemma {:induction false} RunBounds(es: seq<Event>)
    ensures WithinBounds(Run(es))
  {
    if es != [] {
      RunBounds(es[..|es| - 1]);
    }
  }

  /** `k` occurred, or there is still a free slot for it. */
  ghost predicate Fits<K(!new)>(h: seq<Counter<K>>, ks: seq<K>, k: K, limit: nat) {
    k in ks || |h| < limit
  }

  lemma FullTable<K(!new)>(h: seq<Counter<K>>, ks: seq<K>, k: K, limit: nat)
    requires Counts(h, ks) && |h| <= limit
    ensures IndexOf(h, k) == limit <==> !Fits(h, ks, k, limit)
  {
    assert forall i | 0 <= i < |h| :: h[i].key in ks;
    if k in ks {
      var i :| 0 <= i < |h| && h[i].key == k;
      assert IndexOf(h, k) <= i;
    }
  }

  /** The probe switches itself off exactly when a table, the stack or the nesting gives out. */
  lemma DisabledExactlyWhen(es: seq<Event>, e: Event)
    requires Run(es).enabled
    ensures
      var g, l := Run(es), LogOf(es);
      Step(g, e).enabled <==>
      match e
      case Start(oid) =>
        Fits(g.entries, l.started, oid, 8192) && Fits(g.edges, l.edges, Called(l.stack, oid), 4096) && |l.stack| < 1024
      case Leave(oid) => LeavesInnermost(l.stack, oid)
      case Direct => Fits(g.directEdges, l.sites, EvaluatedIn(l.stack), 4096)
  {
    var g, l := Run(es), LogOf(es);
    RunExact(es);
    RunBounds(es);
    hide Counts, Bump, Run, LogOf, Fits;
    match e {
      case Start(oid) =>
        FullTable(g.entries, l.started, oid, MAX_ENTRIES);
        FullTable(g.edges, l.edges, Called(l.stack, oid), MAX_EDGES);
      case Leave(_) =>
      case Direct => FullTable(g.directEdges, l.sites, EvaluatedIn(l.stack), MAX_EDGES);
    }
  }

  /** Once off, the probe counts nothing more, whatever happens. */
  lemma {:induction false} DisabledIsFinal(es: seq<Event>, more: seq<Event>)
    requires !Run(es).enabled
    ensures Run(es + more) == Run(es)
    decreases |more|
  {
    if more == [] {
      assert es + more == es;
    } else {
      var n := |more| - 1;
      DisabledIsFinal(es, more[..n]);
      assert (es + more)[..|es + more| - 1] == es + more[..n];
    }
  }

  // ---------------------------------------------------------------- conservation

  ghost function CallsOf(h: seq<Counter<Oid>>, oid: Oid): nat {
    var i := IndexOf(h, oid);
    if i < |h| then h[i].calls else 0
  }

  ghost predicate Conserved(g: Probe) {
    && (forall oid: Oid :: SumWhere(g.edges, (e: Edge) => e.callee == oid) == CallsOf(g.entries, oid))
    && SumWhere(g.directEdges, (s: Site) => true) == g.directPredicates
  }

  lemma CallsOfBump(h: seq<Counter<Oid>>, k: Oid, oid: Oid)
    ensures CallsOf(Bump(h, k), oid) == CallsOf(h, oid) + if k == oid then 1 else 0
  {
    var i := IndexOf(h, oid);
    var b := Bump(h, k);
    if i < |h| {
      assert b[i].key == oid && forall j | 0 <= j < i :: b[j].key != oid;
    } else if k == oid {
      assert b[|h|].key == oid;
    }
  }

  lemma StepConserves(g: Probe, e: Event)
    requires g.enabled && Conserved(g) && Step(g, e).enabled
    ensures Conserved(Step(g, e))
  {
    hide Bump, IndexOf, SumWhere, CallsOf;
    match e {
      case Start(k) =>
        var edge := EdgeFor(g.callStack, k);
        forall oid: Oid ensures
          SumWhere(Bump(g.edges, edge), (e: Edge) => e.callee == oid) == CallsOf(Bump(g.entries, k), oid)
        {
          SumBump(g.edges, edge, (e: Edge) => e.callee == oid);
          CallsOfBump(g.entries, k, oid);
        }
      case Leave(_) =>
      case Direct => SumBump(g.directEdges, SiteOf(g.callStack), (s: Site) => true);
    }
  }

  /**
   * While the probe is enabled: for every callee the calls over its edges add up to its entry
   * count, and the direct-edge counts add up to `direct_predicates`.
   */
  lemma {:induction false} CallsAreConserved(es: seq<Event>)
    requires Run(es).enabled
    ensures Conserved(Run(es))
  {
    if es != [] {
      hide Conserved;
      CallsAreConserved(es[..|es| - 1]);
      StepConserves(Run(es[..|es| - 1]), es[|es| - 1]);
    } else {
      hide CallsOf;
      assert forall oid: Oid :: CallsOf(STARTED.entries, oid) == 0 by { hide *; NoCalls(); }
    }
  }

  lemma NoCalls()
    ensures forall oid: Oid :: CallsOf([], oid) == 0
  {
  }
}
