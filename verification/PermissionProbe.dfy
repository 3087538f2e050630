/** The probe's static tables and the loops over them; every event takes exactly the step `CallGraph.Step` says. */
module PermissionProbe {
  import opened CallGraph

  /** `for(i=0;i<used;i++) if(table[i]==k) break;` */
  method Search<K(==)>(a: array<Counter<K>>, used: nat, k: K) returns (i: nat)
    requires used <= a.Length
    ensures i == IndexOf(a[..used], k)
  {
    i := 0;
    while i < used && a[i].key != k
      invariant i <= used && forall j | 0 <= j < i :: a[j].key != k
    {
      i := i + 1;
    }
    FirstIndex(a[..used], k, i);
  }

  lemma FirstIndex<K>(h: seq<Counter<K>>, k: K, i: nat)
    requires i <= |h| && (i < |h| ==> h[i].key == k) && forall j | 0 <= j < i :: h[j].key != k
    ensures i == IndexOf(h, k)
  {
  }

  lemma SlotInRange<K>(h: seq<Counter<K>>, k: K)
    ensures IndexOf(h, k) <= |h|
  {
  }

  /** Count one more call of `k`: in its slot, or in the next free one. */
  method Increment<K(==)>(a: array<Counter<K>>, used: nat, i: nat, k: K) returns (used': nat)
    requires used <= a.Length && i == IndexOf(a[..used], k) && i < a.Length
    modifies a
    ensures used' <= a.Length && a[..used'] == Bump(old(a[..used]), k)
  {
    ghost var before := a[..used];
    if i == used {
      a[used] := Counter(k, 0);
      used' := used + 1;
    } else {
      used' := used;
    }
    a[i] := Counter(k, a[i].calls + 1);
    assert a[..used'] == if i < |before| then before[i := Counter(k, before[i].calls + 1)] else before + [Counter(k, 1)];
  }

  class PermissionProbe {
    const entries: array<Counter<Oid>>
    var used: nat
    const edges: array<Counter<Edge>>
    var edgeCount: nat
    const callStack: array<Oid>
    var callDepth: nat
    const directEdges: array<Counter<Site>>
    var directEdgeCount: nat
    var directPredicates: nat
    var enabled: bool

    ghost predicate Valid()
      reads this
    {
      && entries.Length == MAX_ENTRIES && edges.Length == MAX_EDGES && callStack.Length == MAX_DEPTH && directEdges.Length == MAX_EDGES
      && used <= MAX_ENTRIES && edgeCount <= MAX_EDGES && callDepth <= MAX_DEPTH && directEdgeCount <= MAX_EDGES
    }

    ghost function Model(): Probe
      requires Valid()
      reads this, entries, edges, callStack, directEdges
    {
      Probe(enabled, entries[..used], edges[..edgeCount], callStack[..callDepth], directEdges[..directEdgeCount], directPredicates)
    }

    /** `start_probe`. */
    constructor ()
      ensures Valid() && Model() == STARTED
      ensures fresh(entries) && fresh(edges) && fresh(callStack) && fresh(directEdges)
    {
      entries := new Counter<Oid>[MAX_ENTRIES](_ => Counter(0, 0));
      edges := new Counter<Edge>[MAX_EDGES](_ => Counter(Edge(0, 0, 0), 0));
      callStack := new Oid[MAX_DEPTH](_ => 0);
      directEdges := new Counter<Site>[MAX_EDGES](_ => Counter(Site(0, 0), 0));
      used, edgeCount, callDepth, directEdgeCount, directPredicates, enabled := 0, 0, 0, 0, 0, true;
    }

    /** `probe_hook` for FHET_START. */
    method FunctionStarts(oid: Oid)
      requires Valid()
      modifies this, entries, edges, callStack
      ensures Valid() && Model() == Step(old(Model()), Start(oid))
    {
      hide IndexOf, Bump;
      if !enabled { return; }
      var i := Search(entries, used, oid);
      if i == MAX_ENTRIES { enabled := false; return; }
      SlotInRange(entries[..used], oid);
      used := Increment(entries, used, i, oid);
      AddEdge(oid);
    }

    /** The second half: the edge from the caller, and the new top of the stack. */
    method AddEdge(oid: Oid)
      requires Valid()
      modifies `edgeCount, `callDepth, `enabled, edges, callStack
      ensures Valid()
      ensures
        var g := old(Model());
        var edge := EdgeFor(g.callStack, oid);
        Model() ==
        if IndexOf(g.edges, edge) == MAX_EDGES || |g.callStack| == MAX_DEPTH then g.(enabled := false)
        else g.(edges := Bump(g.edges, edge), callStack := g.callStack + [oid])
    {
      hide IndexOf, Bump;
      var caller := if callDepth > 0 then callStack[callDepth - 1] else INVALID_OID;
      var root := if callDepth > 0 then callStack[0] else oid;
      var edge := Search(edges, edgeCount, Edge(root, caller, oid));
      if edge == MAX_EDGES || callDepth == MAX_DEPTH { enabled := false; return; }
      SlotInRange(edges[..edgeCount], Edge(root, caller, oid));
      edgeCount := Increment(edges, edgeCount, edge, Edge(root, caller, oid));
      Push(oid);
    }

    method Push(oid: Oid)
      requires Valid() && callDepth < MAX_DEPTH
      modifies `callDepth, callStack
      ensures Valid() && callStack[..callDepth] == old(callStack[..callDepth]) + [oid]
    {
      callStack[callDepth] := oid;
      callDepth := callDepth + 1;
    }

    /** `probe_hook` for FHET_END and FHET_ABORT. */
    method FunctionLeaves(oid: Oid)
      requires Valid()
      modifies this
      ensures Valid() && Model() == Step(old(Model()), Leave(oid))
    {
      if !enabled { return; }
      ghost var before := Model();
      if callDepth == 0 || callStack[callDepth - 1] != oid { enabled := false; return; }
      callDepth := callDepth - 1;
      assert callStack[..callDepth] == before.callStack[..callDepth];
    }

    /** The counting half of `crm_probe_direct`. */
    method PredicateEvaluated()
      requires Valid()
      modifies this, directEdges
      ensures Valid() && Model() == Step(old(Model()), Direct)
    {
      hide IndexOf, Bump;
      if !enabled { return; }
      directPredicates := directPredicates + 1;
      var root := if callDepth > 0 then callStack[0] else INVALID_OID;
      var caller := if callDepth > 0 then callStack[callDepth - 1] else INVALID_OID;
      var i := Search(directEdges, directEdgeCount, Site(root, caller));
      SlotInRange(directEdges[..directEdgeCount], Site(root, caller));
      if i == MAX_EDGES { enabled := false; return; }
      directEdgeCount := Increment(directEdges, directEdgeCount, i, Site(root, caller));
    }
  }
}
