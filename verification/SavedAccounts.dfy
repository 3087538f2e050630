/**
 * The deployment-scoped account store (apps/app-desktop/src/deployment-accounts.ts).  A deployment
 * stands for `deploymentKey`, which two targets share when they differ only in trailing slashes;
 * user 0 is the empty id.
 */
module SavedAccounts {
  import opened Options

  type Deployment = nat
  /** The parsed application URL: none when it does not parse, else its origin and whether it is exactly that root. */
  datatype AppUrl = Unparsable | Url(origin: nat, root: bool)
  datatype Target = Target(deployment: Deployment, cloud: bool, appUrl: AppUrl)
  datatype Tokens = Tokens(user: nat, token: nat)
  /** `deploymentAccountKey`. */
  datatype AccountKey = AccountKey(deployment: Deployment, user: nat)
  datatype Entry = Entry(target: Target, tokens: Tokens, presentation: Option<nat>)

  datatype Store = Store(entries: seq<Entry>, active: map<Deployment, AccountKey>, order: Option<seq<AccountKey>>)

  function KeyOf(e: Entry): AccountKey {
    AccountKey(e.target.deployment, e.tokens.user)
  }

  function Keys(es: seq<Entry>): (r: seq<AccountKey>)
    ensures |r| == |es| && forall i | 0 <= i < |es| :: r[i] == KeyOf(es[i])
  {
    seq(|es|, i requires 0 <= i < |es| => KeyOf(es[i]))
  }

  /** `findIndex`, or the length when nothing is found. */
  function IndexOf<T(==)>(s: seq<T>, x: T): (i: nat)
    ensures i <= |s| && (i < |s| ==> s[i] == x)
    ensures forall j | 0 <= j < i :: s[j] != x
    ensures x in s <==> i < |s|
  {
    if s == [] then 0 else if s[0] == x then 0 else 1 + IndexOf(s[1..], x)
  }

  ghost predicate Distinct<T(!new)>(s: seq<T>) {
    forall i, j | 0 <= i < |s| && 0 <= j < |s| :: s[i] == s[j] ==> i == j
  }

  /** Account keys are unique, and every active pointer names an entry of that same deployment. */
  ghost predicate WellFormed(s: Store) {
    && Distinct(Keys(s.entries))
    && (forall d <- s.active :: s.active[d].deployment == d && s.active[d] in Keys(s.entries))
    && (s.order.Some? ==> Distinct(s.order.value))
  }

  // ---------------------------------------------------------------- operations

  /** `put`: a known account keeps its place and its presentation. */
  function Put(s: Store, target: Target, tokens: Tokens, activate: bool): Store {
    var key := AccountKey(target.deployment, tokens.user);
    var i := IndexOf(Keys(s.entries), key);
    s.(entries := if i < |s.entries| then s.entries[i := Entry(target, tokens, s.entries[i].presentation)]
                  else s.entries + [Entry(target, tokens, None)],
       active := if activate then s.active[target.deployment := key] else s.active)
  }

  function Filter<T(!new)>(s: seq<T>, p: T -> bool): (r: seq<T>)
    ensures forall x :: x in r <==> x in s && p(x)
    ensures |r| <= |s|
  {
    if s == [] then [] else (if p(s[0]) then [s[0]] else []) + Filter(s[1..], p)
  }

  /** `remove`. */
  function Remove(s: Store, key: AccountKey): Store {
    Store(Filter(s.entries, (e: Entry) => KeyOf(e) != key),
          map d | d in s.active && s.active[d] != key :: s.active[d],
          if s.order.Some? then Some(Filter(s.order.value, (k: AccountKey) => k != key)) else None)
  }

  /** `updatePresentation`, with a valid presentation. */
  function Present(s: Store, key: AccountKey, presentation: nat): Store {
    var i := IndexOf(Keys(s.entries), key);
    if i < |s.entries| then s.(entries := s.entries[i := s.entries[i].(presentation := Some(presentation))]) else s
  }

  /** `current`. */
  function Current(s: Store, target: Target): Option<Tokens> {
    if target.deployment !in s.active then None
    else
      var i := IndexOf(Keys(s.entries), s.active[target.deployment]);
      if i < |s.entries| && s.entries[i].target.deployment == target.deployment then Some(s.entries[i].tokens) else None
  }

  /** The last index wins, as in `new Map(order.map(...))`; unlisted accounts go last. */
  function Rank(order: seq<AccountKey>, key: AccountKey): nat {
    if key !in order then |set k | k in order| else LastIndex(order, key)
  }

  function LastIndex(order: seq<AccountKey>, key: AccountKey): (i: nat)
    requires key in order
    ensures i < |order| && order[i] == key && key !in order[i + 1..]
  {
    var n := |order| - 1;
    if order[n] == key then n
    else
      assert order == order[..n] + [order[n]];
      LastIndex(order[..n], key)
  }

  /** What `orderedEntries` compares. */
  function Weight(s: Store, e: Entry): nat {
    if s.order.Some? then Rank(s.order.value, KeyOf(e)) else if e.target.cloud then 0 else 1
  }

  /** Put `e` in front of the first heavier entry: in a sorted list, behind its equals. */
  function Insert(s: Store, sorted: seq<Entry>, e: Entry): seq<Entry> {
    if sorted == [] then [e]
    else if Weight(s, e) < Weight(s, sorted[0]) then [e] + sorted
    else [sorted[0]] + Insert(s, sorted[1..], e)
  }

  /** `Array.prototype.sort`, which is stable. */
  function StableSort(s: Store, es: seq<Entry>): seq<Entry> {
    if es == [] then [] else Insert(s, StableSort(s, es[..|es| - 1]), es[|es| - 1])
  }

  /** `orderedEntries`. */
  function Ordered(s: Store): seq<Entry> {
    StableSort(s, s.entries)
  }

  datatype Direction = Up | Down

  /** Where `move` would put the account, if anywhere. */
  function Destination(order: seq<AccountKey>, key: AccountKey, direction: Direction): Option<nat> {
    var i := IndexOf(order, key);
    if i == |order| then None
    else if direction.Up? then (if i == 0 then None else Some(i - 1))
    else if i + 1 == |order| then None else Some(i + 1)
  }

  function Swap<T>(s: seq<T>, i: nat, j: nat): seq<T>
    requires i < |s| && j < |s|
  {
    s[i := s[j]][j := s[i]]
  }

  /** `move`; `None` is `false`. */
  function Move(s: Store, key: AccountKey, direction: Direction): Option<Store> {
    var order := Keys(Ordered(s));
    var to := Destination(order, key, direction);
    if to.None? then None else Some(s.(order := Some(Swap(order, IndexOf(order, key), to.value))))
  }

  // ---------------------------------------------------------------- sorting

  ghost predicate Sorted(s: Store, es: seq<Entry>) {
    forall i, j | 0 <= i < j < |es| :: Weight(s, es[i]) <= Weight(s, es[j])
  }

  /** The entries of one weight, in order. */
  function OfWeight(s: Store, es: seq<Entry>, w: nat): seq<Entry> {
    Filter(es, Weighs(s, w))
  }

  function Weighs(s: Store, w: nat): Entry -> bool {
    (e: Entry) => Weight(s, e) == w
  }

  lemma {:induction false} FilterAppend<T(!new)>(a: seq<T>, b: seq<T>, p: T -> bool)
    ensures Filter(a + b, p) == Filter(a, p) + Filter(b, p)
  {
    if a == [] {
      assert a + b == b;
    } else {
      assert (a + b)[1..] == a[1..] + b;
      FilterAppend(a[1..], b, p);
    }
  }

  lemma {:induction false} InsertSorts(s: Store, sorted: seq<Entry>, e: Entry)
    requires Sorted(s, sorted)
    ensures Sorted(s, Insert(s, sorted, e)) && multiset(Insert(s, sorted, e)) == multiset(sorted) + multiset{e}
    ensures |Insert(s, sorted, e)| == |sorted| + 1
    decreases |sorted|
  {
    hide Weight, Sorted;
    if sorted == [] || Weight(s, e) < Weight(s, sorted[0]) {
      SortedFront(s, e, sorted);
    } else {
      SortedTail(s, sorted);
      InsertSorts(s, sorted[1..], e);
      assert sorted == [sorted[0]] + sorted[1..];
      SortedWith(s, sorted[0], sorted[1..], Insert(s, sorted[1..], e), e);
    }
  }

  lemma SortedFront(s: Store, e: Entry, es: seq<Entry>)
    requires Sorted(s, es) && (es == [] || Weight(s, e) < Weight(s, es[0]))
    ensures Sorted(s, [e] + es) && multiset([e] + es) == multiset(es) + multiset{e} && [e] + [] == [e]
  {
    hide Weight;
  }

  lemma SortedTail(s: Store, es: seq<Entry>)
    requires Sorted(s, es) && es != []
    ensures Sorted(s, es[1..])
  {
    hide Weight;
  }

  lemma SortedWith(s: Store, x: Entry, es: seq<Entry>, more: seq<Entry>, e: Entry)
    requires Sorted(s, [x] + es) && Sorted(s, more) && multiset(more) == multiset(es) + multiset{e} && Weight(s, x) <= Weight(s, e)
    ensures Sorted(s, [x] + more) && multiset([x] + more) == multiset([x] + es) + multiset{e}
  {
    hide Weight;
    OneMoreElement(es, more, e);
    forall i | 0 <= i < |more| ensures Weight(s, x) <= Weight(s, more[i]) {
      assert more[i] in more;
      if more[i] != e {
        var j :| 0 <= j < |es| && es[j] == more[i];
        assert ([x] + es)[0] == x && ([x] + es)[j + 1] == more[i];
      }
    }
  }

  lemma OneMoreElement(es: seq<Entry>, more: seq<Entry>, e: Entry)
    requires multiset(more) == multiset(es) + multiset{e}
    ensures forall x <- more :: x in es || x == e
  {
    forall x | x in more ensures x in es || x == e {
      assert x in multiset(more);
      assert x in multiset(es) || x == e;
    }
  }

  lemma {:induction false} InsertIsStable(s: Store, sorted: seq<Entry>, e: Entry, w: nat)
    requires Sorted(s, sorted)
    ensures OfWeight(s, Insert(s, sorted, e), w) == OfWeight(s, sorted, w) + if Weight(s, e) == w then [e] else []
    decreases |sorted|
  {
    hide Weight, Filter;
    var p := Weighs(s, w);
    FilterOne(e, p);
    if sorted == [] {
      assert Filter(sorted, p) == [];
    } else if Weight(s, e) < Weight(s, sorted[0]) {
      FilterAppend([e], sorted, p);
      if Weight(s, e) == w {
        forall x | x in sorted ensures !p(x) {
        }
        FilterNone(sorted, p);
      }
    } else {
      InsertIsStable(s, sorted[1..], e, w);
      FilterAppend([sorted[0]], Insert(s, sorted[1..], e), p);
      FilterAppend([sorted[0]], sorted[1..], p);
      assert [sorted[0]] + sorted[1..] == sorted;
    }
  }

  lemma FilterOne<T(!new)>(x: T, p: T -> bool)
    ensures Filter([x], p) == if p(x) then [x] else []
  {
    assert [x][1..] == [];
  }

  lemma {:induction false} FilterNone<T(!new)>(s: seq<T>, p: T -> bool)
    requires forall x | x in s :: !p(x)
    ensures Filter(s, p) == []
  {
    if s != [] {
      assert s[0] in s;
      FilterNone(s[1..], p);
    }
  }

  lemma {:induction false} SortIsPermutation(s: Store, es: seq<Entry>)
    ensures Sorted(s, StableSort(s, es)) && multiset(StableSort(s, es)) == multiset(es) && |StableSort(s, es)| == |es|
    decreases |es|
  {
    hide Weight, Insert, Sorted;
    if es == [] {
      NothingIsSorted(s);
    } else {
      var n := |es| - 1;
      SortIsPermutation(s, es[..n]);
      InsertSorts(s, StableSort(s, es[..n]), es[n]);
      assert es == es[..n] + [es[n]];
    }
  }

  lemma NothingIsSorted(s: Store)
    ensures Sorted(s, [])
  {
  }

  lemma {:induction false} SortIsStable(s: Store, es: seq<Entry>, w: nat)
    ensures OfWeight(s, StableSort(s, es), w) == OfWeight(s, es, w)
    decreases |es|
  {
    hide Weight, Insert, Sorted, Filter, Weighs;
    if es != [] {
      var n := |es| - 1;
      SortIsPermutation(s, es[..n]);
      SortIsStable(s, es[..n], w);
      InsertIsStable(s, StableSort(s, es[..n]), es[n], w);
      assert es == es[..n] + [es[n]];
      FilterAppend(es[..n], [es[n]], Weighs(s, w));
      FilterOne(es[n], Weighs(s, w));
      Weighed(s, w, es[n]);
    }
  }

  lemma Weighed(s: Store, w: nat, e: Entry)
    ensures Weighs(s, w)(e) == (Weight(s, e) == w)
  {
  }

  /** `orderedEntries` is a permutation of the entries, in ascending order, that keeps the stored order among equals. */
  lemma OrderedIsStablePermutation(s: Store)
    ensures
      var o := Ordered(s);
      && multiset(o) == multiset(s.entries) && Sorted(s, o)
      && forall w: nat :: OfWeight(s, o, w) == OfWeight(s, s.entries, w)
  {
    SortIsPermutation(s, s.entries);
    forall w: nat ensures OfWeight(s, Ordered(s), w) == OfWeight(s, s.entries, w) {
      SortIsStable(s, s.entries, w);
    }
  }

  lemma {:induction false} FilterAgree(es: seq<Entry>, p: Entry -> bool, q: Entry -> bool)
    requires forall e <- es :: p(e) == q(e)
    ensures Filter(es, p) == Filter(es, q)
  {
    if es != [] {
      assert es[0] in es;
      FilterAgree(es[1..], p, q);
    }
  }

  /** The entries of one weight, named by what they have in common, keep their order. */
  lemma ShownInOrder(s: Store, p: Entry -> bool, w: nat)
    requires forall e <- s.entries :: p(e) == (Weight(s, e) == w)
    ensures Filter(Ordered(s), p) == Filter(s.entries, p)
  {
    hide Weight, Ordered, Filter;
    OrderedIsStablePermutation(s);
    forall e | e in Ordered(s) ensures e in s.entries { InPermutation(Ordered(s), s.entries, e); }
    FilterAgree(s.entries, p, Weighs(s, w));
    FilterAgree(Ordered(s), p, Weighs(s, w));
    assert OfWeight(s, Ordered(s), w) == OfWeight(s, s.entries, w);
  }

  lemma InPermutation(a: seq<Entry>, b: seq<Entry>, e: Entry)
    requires multiset(a) == multiset(b) && e in a
    ensures e in b
  {
    assert e in multiset(a);
  }

  /** Without a stored order Cloud accounts come first, and otherwise nothing is moved. */
  lemma CloudComesFirst(s: Store)
    requires s.order.None?
    ensures
      var o := Ordered(s);
      && (forall i, j | 0 <= i < j < |o| && o[j].target.cloud :: o[i].target.cloud)
      && Filter(o, (e: Entry) => e.target.cloud) == Filter(s.entries, (e: Entry) => e.target.cloud)
      && Filter(o, (e: Entry) => !e.target.cloud) == Filter(s.entries, (e: Entry) => !e.target.cloud)
  {
    ShownInOrder(s, (e: Entry) => e.target.cloud, 0);
    ShownInOrder(s, (e: Entry) => !e.target.cloud, 1);
    OrderedIsStablePermutation(s);
    hide Ordered, Filter;
    forall i, j | 0 <= i < j < |Ordered(s)| && Ordered(s)[j].target.cloud ensures Ordered(s)[i].target.cloud {
      assert Weight(s, Ordered(s)[i]) <= Weight(s, Ordered(s)[j]);
    }
  }

  /** With one, the accounts it lists come first, in its order; those it does not list come last, and nothing of these is moved. */
  lemma ListedComeFirst(s: Store)
    requires s.order.Some? && Distinct(s.order.value)
    ensures
      var o, order := Ordered(s), s.order.value;
      && (forall i, j | 0 <= i < j < |o| && KeyOf(o[j]) in order :: KeyOf(o[i]) in order && IndexOf(order, KeyOf(o[i])) <= IndexOf(order, KeyOf(o[j])))
      && Filter(o, (e: Entry) => KeyOf(e) !in order) == Filter(s.entries, (e: Entry) => KeyOf(e) !in order)
  {
    var order := s.order.value;
    var all := set k | k in order;
    forall e: Entry ensures Weight(s, e) == if KeyOf(e) in order then IndexOf(order, KeyOf(e)) else |all| { RankMeans(order, KeyOf(e)); }
    ListSize(order);
    ShownInOrder(s, (e: Entry) => KeyOf(e) !in order, |order|);
    OrderedIsStablePermutation(s);
    hide Ordered, Filter, Weight;
    forall i, j | 0 <= i < j < |Ordered(s)| && KeyOf(Ordered(s)[j]) in order
      ensures KeyOf(Ordered(s)[i]) in order && IndexOf(order, KeyOf(Ordered(s)[i])) <= IndexOf(order, KeyOf(Ordered(s)[j]))
    {
      assert Weight(s, Ordered(s)[i]) <= Weight(s, Ordered(s)[j]);
    }
  }

  lemma RankMeans(order: seq<AccountKey>, key: AccountKey)
    requires Distinct(order)
    ensures Rank(order, key) == if key in order then IndexOf(order, key) else |set k | k in order|
  {
    if key in order { assert order[LastIndex(order, key)] == order[IndexOf(order, key)]; }
  }

  lemma {:induction false} ListSize(order: seq<AccountKey>)
    requires Distinct(order)
    ensures |set k | k in order| == |order|
    decreases |order|
  {
    if order == [] {
      assert (set k | k in order) == {};
    } else {
      var n := |order| - 1;
      assert Distinct(order[..n]);
      ListSize(order[..n]);
      assert order == order[..n] + [order[n]];
      assert (set k | k in order) == (set k | k in order[..n]) + {order[n]};
    }
  }

  // ---------------------------------------------------------------- what every operation keeps

  lemma TailDistinct(es: seq<Entry>)
    requires es != [] && Distinct(Keys(es))
    ensures Distinct(Keys(es[1..])) && forall x <- es[1..] :: KeyOf(x) != KeyOf(es[0])
  {
    forall i, j | 0 <= i < |es[1..]| && 0 <= j < |es[1..]| && Keys(es[1..])[i] == Keys(es[1..])[j] ensures i == j {
      assert Keys(es)[i + 1] == Keys(es)[j + 1];
    }
    forall k | 0 <= k < |es[1..]| ensures KeyOf(es[1..][k]) != KeyOf(es[0]) {
      assert Keys(es)[k + 1] != Keys(es)[0];
    }
  }

  lemma HeadDistinct(e: Entry, rest: seq<Entry>)
    requires Distinct(Keys(rest)) && forall x <- rest :: KeyOf(x) != KeyOf(e)
    ensures Distinct(Keys([e] + rest))
  {
    assert Keys([e] + rest) == [KeyOf(e)] + Keys(rest);
    forall j | 0 <= j < |rest| ensures Keys(rest)[j] != KeyOf(e) {
      assert rest[j] in rest;
    }
  }

  lemma {:induction false} FilterDistinct(es: seq<Entry>, key: AccountKey)
    requires Distinct(Keys(es))
    ensures Distinct(Keys(Filter(es, (e: Entry) => KeyOf(e) != key)))
  {
    hide Distinct;
    var p := (e: Entry) => KeyOf(e) != key;
    if es == [] {
      assert Filter(es, p) == es;
    } else {
      TailDistinct(es);
      FilterDistinct(es[1..], key);
      HeadDistinct(es[0], Filter(es[1..], p));
      assert [] + Filter(es[1..], p) == Filter(es[1..], p);
    }
  }

  lemma {:induction false} FilterKeysDistinct(ks: seq<AccountKey>, key: AccountKey)
    requires Distinct(ks)
    ensures Distinct(Filter(ks, (k: AccountKey) => k != key))
  {
    if ks != [] {
      FilterKeysDistinct(ks[1..], key);
      var rest := Filter(ks[1..], (k: AccountKey) => k != key);
      forall j | 0 <= j < |rest| ensures rest[j] != ks[0] {
        assert rest[j] in ks[1..];
      }
    }
  }

  lemma PutKeeps(s: Store, target: Target, tokens: Tokens, activate: bool)
    requires WellFormed(s)
    ensures WellFormed(Put(s, target, tokens, activate))
    ensures KeyOf(Entry(target, tokens, None)) in Keys(Put(s, target, tokens, activate).entries)
    ensures forall k | k in Keys(s.entries) :: k in Keys(Put(s, target, tokens, activate).entries)
  {
    var key := AccountKey(target.deployment, tokens.user);
    var p := Put(s, target, tokens, activate);
    var i := IndexOf(Keys(s.entries), key);
    if i < |s.entries| {
      assert Keys(p.entries) == Keys(s.entries);
    } else {
      assert Keys(p.entries) == Keys(s.entries) + [key];
      assert Keys(p.entries)[|s.entries|] == key;
    }
  }

  /** Putting an account again keeps its place, its presentation, and every other entry; a new one goes last. */
  lemma PutKeepsPlace(s: Store, target: Target, tokens: Tokens, activate: bool, i: nat)
    requires WellFormed(s) && i < |s.entries|
    ensures
      var p := Put(s, target, tokens, activate);
      && i < |p.entries| && KeyOf(p.entries[i]) == KeyOf(s.entries[i]) && p.entries[i].presentation == s.entries[i].presentation
      && p.entries[i].tokens == (if KeyOf(s.entries[i]) == KeyOf(Entry(target, tokens, None)) then tokens else s.entries[i].tokens)
      && |p.entries| == |s.entries| + (if KeyOf(Entry(target, tokens, None)) in Keys(s.entries) then 0 else 1)
  {
    var key := AccountKey(target.deployment, tokens.user);
    if KeyOf(s.entries[i]) == key {
      assert Keys(s.entries)[i] == Keys(s.entries)[IndexOf(Keys(s.entries), key)];
    }
  }

  lemma RemoveKeeps(s: Store, key: AccountKey)
    requires WellFormed(s)
    ensures WellFormed(Remove(s, key))
    ensures key !in Keys(Remove(s, key).entries)
    ensures forall k | k in Keys(s.entries) && k != key :: k in Keys(Remove(s, key).entries)
  {
    var p := (e: Entry) => KeyOf(e) != key;
    var r := Remove(s, key);
    FilterDistinct(s.entries, key);
    if s.order.Some? { FilterKeysDistinct(s.order.value, key); }
    forall k | k in Keys(s.entries) && k != key ensures k in Keys(r.entries) {
      var i :| 0 <= i < |s.entries| && Keys(s.entries)[i] == k;
      assert s.entries[i] in r.entries;
      var j :| 0 <= j < |r.entries| && r.entries[j] == s.entries[i];
      assert Keys(r.entries)[j] == k;
    }
    forall i | 0 <= i < |r.entries| ensures Keys(r.entries)[i] != key {
      assert r.entries[i] in r.entries;
    }
  }

  /** Updating a presentation changes that of this account alone. */
  lemma PresentMeans(s: Store, key: AccountKey, presentation: nat, i: nat)
    requires WellFormed(s) && i < |s.entries|
    ensures
      var p := Present(s, key, presentation);
      && p.active == s.active && p.order == s.order && |p.entries| == |s.entries|
      && p.entries[i] == if KeyOf(s.entries[i]) == key then s.entries[i].(presentation := Some(presentation)) else s.entries[i]
  {
    assert Keys(s.entries)[i] == KeyOf(s.entries[i]);
  }

  lemma PresentKeeps(s: Store, key: AccountKey, presentation: nat)
    requires WellFormed(s)
    ensures WellFormed(Present(s, key, presentation)) && Keys(Present(s, key, presentation).entries) == Keys(s.entries)
  {
    assert Keys(Present(s, key, presentation).entries) == Keys(s.entries);
  }

  /** What was put with activation is what `current` gives back, and no other deployment's session changes. */
  lemma CurrentAfterPut(s: Store, target: Target, tokens: Tokens, other: Target)
    requires WellFormed(s)
    ensures Current(Put(s, target, tokens, true), target) == Some(tokens)
    ensures other.deployment != target.deployment ==> Current(Put(s, target, tokens, true), other) == Current(s, other)
  {
    PutIsCurrent(s, target, tokens);
    if other.deployment != target.deployment { OthersStayCurrent(s, target, tokens, other); }
  }

  lemma PutIsCurrent(s: Store, target: Target, tokens: Tokens)
    requires WellFormed(s)
    ensures Current(Put(s, target, tokens, true), target) == Some(tokens)
  {
    PutKeeps(s, target, tokens, true);
    SameIndex(Put(s, target, tokens, true).entries, AccountKey(target.deployment, tokens.user));
    hide WellFormed;
  }

  /** Put without being made active, a session changes nobody's current one, except where it was it already: then by its tokens. */
  lemma PutWithoutActivating(s: Store, target: Target, tokens: Tokens, other: Target)
    requires WellFormed(s)
    ensures
      Current(Put(s, target, tokens, false), other) ==
      if other.deployment in s.active && s.active[other.deployment] == AccountKey(target.deployment, tokens.user) then Some(tokens)
      else Current(s, other)
  {
    var key := AccountKey(target.deployment, tokens.user);
    if other.deployment in s.active {
      PutKeeps(s, target, tokens, false);
      if s.active[other.deployment] == key {
        SameIndex(Put(s, target, tokens, false).entries, key);
      } else {
        PutKeepsOthers(s, target, tokens, s.active[other.deployment]);
      }
    }
  }

  lemma OthersStayCurrent(s: Store, target: Target, tokens: Tokens, other: Target)
    requires WellFormed(s) && other.deployment != target.deployment
    ensures Current(Put(s, target, tokens, true), other) == Current(s, other)
  {
    if other.deployment in s.active {
      PutKeeps(s, target, tokens, true);
      PutKeepsOthers(s, target, tokens, s.active[other.deployment]);
    }
  }

  lemma SameIndex(es: seq<Entry>, key: AccountKey)
    ensures var i := IndexOf(Keys(es), key); i < |es| ==> KeyOf(es[i]) == key
  {
  }

  lemma PutKeepsOthers(s: Store, target: Target, tokens: Tokens, k: AccountKey)
    requires WellFormed(s) && k in Keys(s.entries) && k != AccountKey(target.deployment, tokens.user)
    ensures
      var p := Put(s, target, tokens, true);
      IndexOf(Keys(p.entries), k) == IndexOf(Keys(s.entries), k) && p.entries[IndexOf(Keys(s.entries), k)] == s.entries[IndexOf(Keys(s.entries), k)]
  {
    var key := AccountKey(target.deployment, tokens.user);
    var p := Put(s, target, tokens, true);
    var i := IndexOf(Keys(s.entries), k);
    var j := IndexOf(Keys(p.entries), k);
    PutKeeps(s, target, tokens, true);
    assert Keys(p.entries)[i] == Keys(s.entries)[i] == k;
    assert Keys(p.entries)[j] == k;
  }

  /** A removed account is gone, and no active pointer names it any more. */
  lemma RemovedIsGone(s: Store, key: AccountKey, target: Target)
    requires WellFormed(s)
    ensures
      var r := Remove(s, key);
      && key !in Keys(r.entries)
      && (r.order.Some? <==> s.order.Some?) && (r.order.Some? ==> forall k :: k in r.order.value <==> k in s.order.value && k != key)
      && (forall d <- r.active :: r.active[d] != key)
      && (Current(r, target).Some? <==> target.deployment in s.active && s.active[target.deployment] != key)
  {
    RemoveKeeps(s, key);
    var r := Remove(s, key);
    if target.deployment in r.active {
      SameIndex(r.entries, r.active[target.deployment]);
    }
  }

  /** `current` answers with a session of that very deployment, or not at all, whatever the stored blob says. */
  lemma CurrentIsOfDeployment(s: Store, target: Target)
    ensures Current(s, target).Some? ==> exists e :: e in s.entries && e.target.deployment == target.deployment && Current(s, target) == Some(e.tokens)
  {
    if Current(s, target).Some? {
      var i := IndexOf(Keys(s.entries), s.active[target.deployment]);
      assert s.entries[i] in s.entries;
    }
  }

  // ---------------------------------------------------------------- what removing shows

  /** The entries `p` keeps are told apart alike by two stores. */
  ghost predicate SameOrder(s: Store, r: Store, es: seq<Entry>, p: Entry -> bool) {
    forall x, y | x in es && y in es && p(x) && p(y) :: Weight(s, x) < Weight(s, y) <==> Weight(r, x) < Weight(r, y)
  }

  lemma Alike(s: Store, r: Store, es: seq<Entry>, p: Entry -> bool, x: Entry, y: Entry)
    requires SameOrder(s, r, es, p) && x in es && y in es && p(x) && p(y)
    ensures Weight(s, x) < Weight(s, y) <==> Weight(r, x) < Weight(r, y)
  {
  }

  lemma FewerAlike(s: Store, r: Store, es: seq<Entry>, p: Entry -> bool, fewer: seq<Entry>)
    requires SameOrder(s, r, es, p) && forall x | x in fewer :: x in es
    ensures SameOrder(s, r, fewer, p)
  {
    hide Weight;
  }

  lemma GoesInFront(s: Store, es: seq<Entry>, e: Entry)
    requires es != [] ==> Weight(s, e) < Weight(s, es[0])
    ensures Insert(s, es, e) == [e] + es
  {
    hide Weight;
  }

  lemma GoesBehind(s: Store, x: Entry, rest: seq<Entry>, e: Entry)
    requires Weight(s, e) >= Weight(s, x)
    ensures Insert(s, [x] + rest, e) == [x] + Insert(s, rest, e)
  {
    hide Weight;
    assert ([x] + rest)[1..] == rest;
  }

  lemma FilterFront(x: Entry, rest: seq<Entry>, p: Entry -> bool)
    ensures Filter([x] + rest, p) == (if p(x) then [x] else []) + Filter(rest, p)
  {
    FilterAppend([x], rest, p);
    FilterOne(x, p);
  }

  lemma {:induction false} InsertFiltered(s: Store, r: Store, sorted: seq<Entry>, e: Entry, p: Entry -> bool)
    requires Sorted(s, sorted) && SameOrder(s, r, sorted + [e], p)
    ensures Filter(Insert(s, sorted, e), p) == if p(e) then Insert(r, Filter(sorted, p), e) else Filter(sorted, p)
    decreases |sorted|
  {
    hide Weight, Filter, Insert, SameOrder, Sorted;
    if sorted == [] || Weight(s, e) < Weight(s, sorted[0]) {
      InsertedInFront(s, r, sorted, e, p);
    } else {
      var x, rest := sorted[0], sorted[1..];
      assert [x] + rest == sorted;
      SortedTail(s, sorted);
      FewerAlike(s, r, sorted + [e], p, rest + [e]);
      InsertFiltered(s, r, rest, e, p);
      GoesBehind(s, x, rest, e);
      FilterFront(x, Insert(s, rest, e), p);
      FilterFront(x, rest, p);
      if p(x) && p(e) {
        Alike(s, r, sorted + [e], p, e, x);
        GoesBehind(r, x, Filter(rest, p), e);
      } else if !p(x) {
        assert [] + Filter(rest, p) == Filter(rest, p);
        assert [] + Filter(Insert(s, rest, e), p) == Filter(Insert(s, rest, e), p);
      }
    }
  }

  lemma InsertedInFront(s: Store, r: Store, sorted: seq<Entry>, e: Entry, p: Entry -> bool)
    requires Sorted(s, sorted) && SameOrder(s, r, sorted + [e], p) && (sorted == [] || Weight(s, e) < Weight(s, sorted[0]))
    ensures Filter(Insert(s, sorted, e), p) == if p(e) then Insert(r, Filter(sorted, p), e) else Filter(sorted, p)
  {
    hide Weight, Filter, Insert, SameOrder;
    var kept := Filter(sorted, p);
    GoesInFront(s, sorted, e);
    FilterFront(e, sorted, p);
    if p(e) {
      if kept != [] {
        assert kept[0] in kept;
        Alike(s, r, sorted + [e], p, e, kept[0]);
      }
      GoesInFront(r, kept, e);
    } else {
      assert [] + kept == kept;
    }
  }

  lemma {:induction false} SortFiltered(s: Store, r: Store, es: seq<Entry>, p: Entry -> bool)
    requires SameOrder(s, r, es, p)
    ensures StableSort(r, Filter(es, p)) == Filter(StableSort(s, es), p)
    decreases |es|
  {
    hide Weight, Filter, Insert, Sorted, SameOrder;
    if es == [] {
      NothingFiltered(p);
    } else {
      var before, e := es[..|es| - 1], es[|es| - 1];
      assert es == before + [e];
      FewerAlike(s, r, es, p, before);
      SortFiltered(s, r, before, p);
      var sorted := StableSort(s, before);
      SortIsPermutation(s, before);
      forall x | x in sorted ensures x in before { InPermutation(sorted, before, x); }
      FewerAlike(s, r, es, p, sorted + [e]);
      InsertFiltered(s, r, sorted, e, p);
      FilterLast(before, e, p);
      hide StableSort;
      if p(e) { SortLast(r, Filter(before, p), e); }
      SortLast(s, before, e);
    }
  }

  lemma NothingFiltered(p: Entry -> bool)
    ensures Filter<Entry>([], p) == []
  {
  }

  lemma FilterLast(es: seq<Entry>, e: Entry, p: Entry -> bool)
    ensures Filter(es + [e], p) == if p(e) then Filter(es, p) + [e] else Filter(es, p)
  {
    FilterAppend(es, [e], p);
    FilterOne(e, p);
  }

  lemma SortLast(s: Store, es: seq<Entry>, e: Entry)
    ensures StableSort(s, es + [e]) == Insert(s, StableSort(s, es), e)
  {
    assert (es + [e])[..|es|] == es;
    hide Insert;
  }

  /** Where a key is found once the others are filtered. */
  lemma {:induction false} IndexFiltered(order: seq<AccountKey>, key: AccountKey, a: AccountKey, b: AccountKey)
    requires a in order && b in order && a != key && b != key
    ensures
      var rest := Filter(order, (k: AccountKey) => k != key);
      IndexOf(order, a) < IndexOf(order, b) <==> IndexOf(rest, a) < IndexOf(rest, b)
    decreases |order|
  {
    var p := (k: AccountKey) => k != key;
    var x, tail := order[0], order[1..];
    assert order == [x] + tail;
    var rest := Filter(tail, p);
    FilterKeys(x, tail, p);
    assert [] + rest == rest;
    hide Filter;
    IndexFront(x, tail, a);
    IndexFront(x, tail, b);
    IndexFront(x, rest, a);
    IndexFront(x, rest, b);
    hide IndexOf;
    if a != x && b != x {
      IndexFiltered(tail, key, a, b);
    }
  }

  lemma FilterKeys(x: AccountKey, tail: seq<AccountKey>, p: AccountKey -> bool)
    ensures Filter([x] + tail, p) == (if p(x) then [x] else []) + Filter(tail, p)
  {
    assert ([x] + tail)[1..] == tail;
  }

  lemma IndexFront(x: AccountKey, tail: seq<AccountKey>, a: AccountKey)
    ensures IndexOf([x] + tail, a) == if x == a then 0 else 1 + IndexOf(tail, a)
  {
    assert ([x] + tail)[1..] == tail;
  }

  lemma RankFiltered(order: seq<AccountKey>, key: AccountKey, a: AccountKey, b: AccountKey)
    requires Distinct(order) && a != key && b != key
    ensures
      var rest := Filter(order, (k: AccountKey) => k != key);
      Rank(order, a) < Rank(order, b) <==> Rank(rest, a) < Rank(rest, b)
  {
    var rest := Filter(order, (k: AccountKey) => k != key);
    FilterKeysDistinct(order, key);
    ListSize(order);
    ListSize(rest);
    RankMeans(order, a);
    RankMeans(order, b);
    RankMeans(rest, a);
    RankMeans(rest, b);
    if a in order && b in order { IndexFiltered(order, key, a, b); }
    hide Rank, Filter;
  }

  /** Removing an account shows the others as they were shown. */
  lemma RemoveShowsTheRest(s: Store, key: AccountKey)
    requires WellFormed(s)
    ensures Ordered(Remove(s, key)) == Filter(Ordered(s), (e: Entry) => KeyOf(e) != key)
  {
    var r := Remove(s, key);
    var p := (e: Entry) => KeyOf(e) != key;
    forall x, y | x in s.entries && y in s.entries && p(x) && p(y) ensures Weight(s, x) < Weight(s, y) <==> Weight(r, x) < Weight(r, y) {
      if s.order.Some? { RankFiltered(s.order.value, key, KeyOf(x), KeyOf(y)); }
    }
    hide Weight;
    SortFiltered(s, r, s.entries, p);
  }

  // ---------------------------------------------------------------- ordering

  lemma MultisetKeys(a: seq<Entry>, b: seq<Entry>)
    requires multiset(a) == multiset(b) && Distinct(Keys(b))
    ensures |a| == |b| && Distinct(Keys(a)) && forall k :: k in Keys(a) <==> k in Keys(b)
  {
    assert |a| == |multiset(a)| == |b|;
    forall e ensures e in a <==> e in b {
      assert e in multiset(a) <==> e in multiset(b);
    }
    KeysFrom(a, b);
    KeysFrom(b, a);
    DistinctEntries(b);
    forall i, j | 0 <= i < j < |a| ensures Keys(a)[i] != Keys(a)[j] {
      DifferentKeys(a, b, i, j);
    }
  }

  lemma DifferentKeys(a: seq<Entry>, b: seq<Entry>, i: nat, j: nat)
    requires multiset(a) == multiset(b) && Distinct(Keys(b)) && (forall e :: multiset(b)[e] <= 1) && i < j < |a|
    ensures KeyOf(a[i]) != KeyOf(a[j])
  {
    assert a[i] in multiset(b) && a[j] in multiset(b);
    var x :| 0 <= x < |b| && b[x] == a[i];
    var y :| 0 <= y < |b| && b[y] == a[j];
    assert a[i] == a[j] ==> multiset(a)[a[i]] >= 2 by {
      if a[i] == a[j] { TwiceCounts(a, i, j); }
    }
    assert x != y;
    assert Keys(b)[x] != Keys(b)[y];
  }

  lemma KeysFrom(a: seq<Entry>, b: seq<Entry>)
    requires forall e <- a :: e in b
    ensures forall k <- Keys(a) :: k in Keys(b)
  {
    forall k | k in Keys(a) ensures k in Keys(b) {
      var i :| 0 <= i < |a| && Keys(a)[i] == k;
      assert a[i] in b;
      var j :| 0 <= j < |b| && b[j] == a[i];
      assert Keys(b)[j] == k;
    }
  }

  lemma DistinctEntries(b: seq<Entry>)
    requires Distinct(Keys(b))
    ensures forall e :: multiset(b)[e] <= 1
  {
    forall e ensures multiset(b)[e] <= 1 {
      TwoPlaces(b, e);
    }
  }

  lemma {:induction false} TwoPlaces(b: seq<Entry>, e: Entry)
    requires Distinct(Keys(b))
    ensures multiset(b)[e] <= 1
  {
    hide Distinct;
    if b != [] {
      assert b == [b[0]] + b[1..];
      TailDistinct(b);
      TwoPlaces(b[1..], e);
      assert b[0] !in b[1..];
    }
  }

  lemma TwiceCounts(a: seq<Entry>, i: nat, j: nat)
    requires i < j < |a| && a[i] == a[j]
    ensures multiset(a)[a[i]] >= 2
  {
    assert a == a[..i] + [a[i]] + a[i + 1..j] + [a[j]] + a[j + 1..];
  }

  /** `r` is `n` numbers below `n`, strictly ascending: it is 0, 1, ... */
  lemma {:induction false} AscendingIsIdentity(r: seq<nat>, i: nat)
    requires (forall x, y | 0 <= x < y < |r| :: r[x] < r[y]) && (forall x | 0 <= x < |r| :: r[x] < |r|) && i < |r|
    ensures r[i] == i
  {
    AtLeast(r, i);
    AtMost(r, i);
  }

  lemma {:induction false} AtLeast(r: seq<nat>, i: nat)
    requires (forall x, y | 0 <= x < y < |r| :: r[x] < r[y]) && i < |r|
    ensures r[i] >= i
  {
    if i > 0 { AtLeast(r, i - 1); }
  }

  lemma {:induction false} AtMost(r: seq<nat>, i: nat)
    requires (forall x, y | 0 <= x < y < |r| :: r[x] < r[y]) && (forall x | 0 <= x < |r| :: r[x] < |r|) && i < |r|
    ensures r[i] <= i
    decreases |r| - i
  {
    if i + 1 < |r| { AtMost(r, i + 1); }
  }

  /** A stored order that lists every account is the order in which accounts are shown. */
  lemma CompleteOrderIsShown(s: Store)
    requires WellFormed(s) && s.order.Some? && |s.order.value| == |s.entries| && forall k <- Keys(s.entries) :: k in s.order.value
    ensures Keys(Ordered(s)) == s.order.value
  {
    var o, order := Ordered(s), s.order.value;
    SortIsPermutation(s, s.entries);
    MultisetKeys(o, s.entries);
    var ranks := seq(|o|, i requires 0 <= i < |o| => Weight(s, o[i]));
    forall i | 0 <= i < |o| ensures ranks[i] < |o| && order[ranks[i]] == KeyOf(o[i]) {
      assert Keys(o)[i] in Keys(s.entries);
    }
    forall x, y | 0 <= x < y < |o| ensures ranks[x] < ranks[y] {
      assert Weight(s, o[x]) <= Weight(s, o[y]);
      assert Keys(o)[x] != Keys(o)[y];
    }
    forall i | 0 <= i < |o| ensures Keys(o)[i] == order[i] {
      AscendingIsIdentity(ranks, i);
    }
  }

  /** An account can be moved exactly if it is saved and not shown at that end already. */
  lemma MovesExactlyWhen(s: Store, key: AccountKey, direction: Direction)
    requires WellFormed(s)
    ensures |Ordered(s)| == |s.entries|
    ensures Move(s, key, direction).Some? <==>
      key in Keys(s.entries) && Keys(Ordered(s))[if direction.Up? then 0 else |s.entries| - 1] != key
  {
    hide Ordered, StableSort;
    SortIsPermutation(s, s.entries);
    OrderedIsStablePermutation(s);
    OrderDistinct(s);
    MultisetKeys(Ordered(s), s.entries);
    SameKeys(Ordered(s), s.entries, key);
  }

  lemma SameKeys(a: seq<Entry>, b: seq<Entry>, key: AccountKey)
    requires multiset(a) == multiset(b)
    ensures key in Keys(a) <==> key in Keys(b)
  {
    if key in Keys(a) {
      var i :| 0 <= i < |a| && Keys(a)[i] == key;
      InPermutation(a, b, a[i]);
      var j :| 0 <= j < |b| && b[j] == a[i];
      assert Keys(b)[j] == key;
    }
    if key in Keys(b) {
      var i :| 0 <= i < |b| && Keys(b)[i] == key;
      InPermutation(b, a, b[i]);
      var j :| 0 <= j < |a| && a[j] == b[i];
      assert Keys(a)[j] == key;
    }
  }

  /** A move shows exactly the old order with the account and its neighbour exchanged, and keeps the store well-formed. */
  lemma MoveExchanges(s: Store, key: AccountKey, direction: Direction)
    requires WellFormed(s) && Move(s, key, direction).Some?
    ensures
      var m := Move(s, key, direction).value;
      var before := Keys(Ordered(s));
      var i := IndexOf(before, key);
      var j := if direction.Up? then i - 1 else i + 1;
      && WellFormed(m) && m.entries == s.entries && m.active == s.active
      && i < |before| && 0 <= j < |before| && Destination(before, key, direction) == Some(j)
      && Keys(Ordered(m)) == Swap(before, i, j)
  {
    var m := Move(s, key, direction).value;
    var before := Keys(Ordered(s));
    var i, j := IndexOf(before, key), Destination(before, key, direction).value;
    SortIsPermutation(s, s.entries);
    MultisetKeys(Ordered(s), s.entries);
    var order := Swap(before, i, j);
    SwapDistinct(before, i, j);
    forall k | k in Keys(s.entries) ensures k in order {
      var x :| 0 <= x < |before| && before[x] == k;
      assert order[if x == i then j else if x == j then i else x] == k;
    }
    CompleteOrderIsShown(m);
  }

  lemma SwapDistinct(s: seq<AccountKey>, i: nat, j: nat)
    requires Distinct(s) && i < |s| && j < |s|
    ensures Distinct(Swap(s, i, j))
  {
  }

  /** Moving an account up and then down, or down and then up, shows the original order again. */
  lemma MoveBack(s: Store, key: AccountKey, direction: Direction)
    requires WellFormed(s) && Move(s, key, direction).Some?
    ensures
      var back := if direction.Up? then Down else Up;
      var m := Move(s, key, direction).value;
      Move(m, key, back).Some? && Keys(Ordered(Move(m, key, back).value)) == Keys(Ordered(s))
  {
    hide Ordered, WellFormed;
    var back := if direction.Up? then Down else Up;
    var m := Move(s, key, direction).value;
    var before := Keys(Ordered(s));
    var i, j := IndexOf(before, key), Destination(before, key, direction).value;
    MoveExchanges(s, key, direction);
    OrderDistinct(m);
    var after := Keys(Ordered(m));
    assert after[j] == key;
    hide Move, Keys;
    OnlyIndex(after, key, j);
    assert Destination(after, key, back) == Some(i);
    MoveExchanges(m, key, back);
    assert Swap(after, j, i) == before;
  }

  lemma OnlyIndex(keys: seq<AccountKey>, key: AccountKey, j: nat)
    requires Distinct(keys) && j < |keys| && keys[j] == key
    ensures IndexOf(keys, key) == j
  {
    assert keys[IndexOf(keys, key)] == key;
  }

  lemma OrderDistinct(s: Store)
    requires WellFormed(s)
    ensures Distinct(Keys(Ordered(s)))
  {
    SortIsPermutation(s, s.entries);
    MultisetKeys(Ordered(s), s.entries);
  }

  // ---------------------------------------------------------------- any run

  datatype Change =
    | Saved(target: Target, tokens: Tokens, activate: bool)
    | Removed(key: AccountKey)
    | Presented(key: AccountKey, presentation: nat)
    | Moved(key: AccountKey, direction: Direction)

  /**
   * One operation.  When it refuses, or the blob could not be written, the stored blob stays as it
   * was; once written it stays, even if reading it back failed and the operation reported failure.
   */
  function Apply(s: Store, c: Change, written: bool): Store {
    if !written then s
    else match c
      case Saved(target, tokens, activate) => Put(s, target, tokens, activate)
      case Removed(key) => Remove(s, key)
      case Presented(key, presentation) => Present(s, key, presentation)
      case Moved(key, direction) => var m := Move(s, key, direction); if m.Some? then m.value else s
  }

  function History(s: Store, cs: seq<(Change, bool)>): Store
    decreases |cs|
  {
    if cs == [] then s else History(Apply(s, cs[0].0, cs[0].1), cs[1..])
  }

  /** Starting from a well-formed store, account keys stay unique and every active pointer stays good, over any run. */
  lemma {:induction false} StoreStaysWellFormed(s: Store, cs: seq<(Change, bool)>)
    requires WellFormed(s)
    ensures WellFormed(History(s, cs))
    decreases |cs|
  {
    hide WellFormed, Put, Remove, Present, Move;
    if cs != [] {
      match cs[0].0 {
        case Saved(target, tokens, activate) => PutKeeps(s, target, tokens, activate);
        case Removed(key) => RemoveKeeps(s, key);
        case Presented(key, presentation) => PresentKeeps(s, key, presentation);
        case Moved(key, direction) => if Move(s, key, direction).Some? { MoveExchanges(s, key, direction); }
      }
      StoreStaysWellFormed(Apply(s, cs[0].0, cs[0].1), cs[1..]);
    }
  }

  /** In a well-formed store an active pointer always has a session behind it, of its own deployment. */
  lemma ActiveIsUsable(s: Store, target: Target)
    requires WellFormed(s)
    ensures target.deployment in s.active <==> Current(s, target).Some?
    ensures target.deployment in s.active ==> exists e :: e in s.entries && e.target.deployment == target.deployment
                                                          && KeyOf(e) == s.active[target.deployment] && Current(s, target) == Some(e.tokens)
  {
    if target.deployment in s.active {
      var i := IndexOf(Keys(s.entries), s.active[target.deployment]);
      SameIndex(s.entries, s.active[target.deployment]);
      assert s.entries[i] in s.entries;
    }
  }
}
